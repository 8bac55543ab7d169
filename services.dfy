/** The external collaborators of the backend, as one object: the FDA
    label API, the PostgreSQL `drugs` table, the MongoDB `articles`
    collection and the chat model. What each external
    system answers is fixed when the object is built (a function of the
    request); what the backend changes is the call trace and the contents
    of the two stores. */
module Services {
  import opened Wrappers
  import opened PyStr
  import opened PyJson
  import opened DataStore

  /** One call the backend makes to a collaborator. */
  datatype Call =
    | FetchLabel(drugName: string)
    | SaveDrug(drugName: string, interactions: Json)
    | Recommend(drugList: seq<string>, interactions: Json)
    | StoreArticle(text: string)

  /** A row of the `drugs` table (its generated id belongs to the database). */
  datatype DrugRow = DrugRow(drugName: string, interactions: Json)

  const RecommendationFallback: string := "Recommendation generation error."

  /** What `fetch_drug_data_fda` hands back: the decoded answer, or `{}`
      when the request, the status check or the decoding failed. */
  function LabelOrEmpty(answer: Option<Json>): (raw: Json)
    ensures answer.None? ==> raw == EmptyObject
    ensures answer.Some? ==> raw == answer.value
  {
    answer.GetOr(EmptyObject)
  }

  /** What `get_drug_recommendations` hands back: the model's reply with
      surrounding whitespace stripped, or the fixed fallback text when the
      call failed. */
  function RecommendationText(reply: Option<string>): (text: string)
    ensures reply.None? ==> text == RecommendationFallback
    ensures reply.Some? ==> text == Strip(reply.value) && Trimmed(text)
  {
    match reply
    case Some(content) => Strip(content)
    case None => RecommendationFallback
  }

  class Collaborators {
    /** The process environment. */
    const env: Env
    /** The label API's decoded answer for a drug name; None when the
        request fails. */
    const labelApi: string -> Option<Json>
    /** The chat model's reply for a drug list and a description; None when
        the call fails. */
    const chat: (seq<string>, Json) -> Option<string>
    /** Whether PostgreSQL, reached with the given connection parameters,
        accepts the insert of a row. */
    const postgresAccepts: (map<string, string>, string, Json) -> bool
    /** Whether MongoDB, reached at the given URI, accepts the insert of an
        article. */
    const mongoAccepts: (string, string) -> bool

    /** The collaborator calls made so far, oldest first. */
    var trace: seq<Call>
    /** The rows of the `drugs` table, in insertion order. */
    var drugs: seq<DrugRow>
    /** The `content` of the documents of the `articles` collection. */
    var articles: seq<string>

    constructor (env: Env, labelApi: string -> Option<Json>,
                 chat: (seq<string>, Json) -> Option<string>,
                 postgresAccepts: (map<string, string>, string, Json) -> bool,
                 mongoAccepts: (string, string) -> bool,
                 drugs: seq<DrugRow>, articles: seq<string>)
      ensures this.env == env && this.labelApi == labelApi && this.chat == chat
      ensures this.postgresAccepts == postgresAccepts && this.mongoAccepts == mongoAccepts
      ensures this.drugs == drugs && this.articles == articles && trace == []
    {
      this.env := env;
      this.labelApi := labelApi;
      this.chat := chat;
      this.postgresAccepts := postgresAccepts;
      this.mongoAccepts := mongoAccepts;
      this.drugs := drugs;
      this.articles := articles;
      trace := [];
    }

    /** The row a `save_drug_postgres` call adds: none when the
        configuration is incomplete or the database refuses the insert. */
    function AddedRows(drugName: string, interactions: Json): (rows: seq<DrugRow>)
      ensures |rows| <= 1
      ensures rows != [] ==> rows == [DrugRow(drugName, interactions)]
      ensures PostgresConfig(env).Failure? ==> rows == []
      ensures PostgresConfig(env).Success? ==>
                (rows != [] <==> postgresAccepts(PostgresConfig(env).value, drugName, interactions))
    {
      match PostgresConfig(env)
      case Failure(_) => []
      case Success(config) =>
        if postgresAccepts(config, drugName, interactions) then [DrugRow(drugName, interactions)] else []
    }

    /** `fetch_drug_data_fda(drug_name)`: one request to the label API; a
        failed request gives `{}`. */
    method FetchDrugDataFda(drugName: string) returns (raw: Json)
      modifies this`trace
      ensures trace == old(trace) + [FetchLabel(drugName)]
      ensures raw == LabelOrEmpty(labelApi(drugName))
    {
      trace := trace + [FetchLabel(drugName)];
      match labelApi(drugName)
      case Some(data) =>
        raw := data;
      case None =>
        raw := EmptyObject;
    }

    /** `save_drug_postgres(drug_name, interactions)`: reads the
        configuration, inserts one row, and catches every failure, the
        configuration error included, so that nothing reaches the caller;
        a failure only means that no row is added. */
    method SaveDrugPostgres(drugName: string, interactions: Json)
      modifies this`trace, this`drugs
      ensures trace == old(trace) + [SaveDrug(drugName, interactions)]
      ensures drugs == old(drugs) + AddedRows(drugName, interactions)
    {
      trace := trace + [SaveDrug(drugName, interactions)];
      var config := PostgresConfig(env);
      match config
      case Failure(_) =>
        // the EnvironmentError is caught and logged
      case Success(params) =>
        if postgresAccepts(params, drugName, interactions) {
          drugs := drugs + [DrugRow(drugName, interactions)];
        }
        // otherwise the driver's error is caught and logged
    }

    /** `save_article_mongo(article_text)`: inserts one document at the
        configured URI and catches every failure. */
    method SaveArticleMongo(text: string)
      modifies this`trace, this`articles
      ensures trace == old(trace) + [StoreArticle(text)]
      ensures articles == old(articles) + (if mongoAccepts(MongoUri(env), text) then [text] else [])
    {
      trace := trace + [StoreArticle(text)];
      if mongoAccepts(MongoUri(env), text) {
        articles := articles + [text];
      }
    }

    /** `get_drug_recommendations(drug_list, interactions)`: one call to the
        chat model; a failed call gives the fallback text. */
    method GetDrugRecommendations(drugList: seq<string>, interactions: Json) returns (text: string)
      modifies this`trace
      ensures trace == old(trace) + [Recommend(drugList, interactions)]
      ensures text == RecommendationText(chat(drugList, interactions))
    {
      trace := trace + [Recommend(drugList, interactions)];
      match chat(drugList, interactions)
      case Some(content) =>
        text := Strip(content);
      case None =>
        text := RecommendationFallback;
    }
  }
}
