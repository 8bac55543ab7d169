/** The HTTP endpoints of the backend that hold decisions of their own:
    the interaction check and the article upload. Each takes the
    collaborators as an explicit `Services` object. */
module Main {
  import opened Wrappers
  import opened PyStr
  import opened PyJson
  import opened Services
  import DataStore

  /** Request bodies. */
  datatype DrugListRequest = DrugListRequest(drugList: seq<string>)
  datatype ArticleRequest = ArticleRequest(articleText: string)
  /** A search request. The limit is `None` only when the client sent an
      explicit `null`; a request without a limit carries 3. */
  datatype SearchRequest = SearchRequest(query: string, limit: Option<int>)

  /** `{"drug": ..., "description": ..., "recommendations": ...}`; the
      description is whatever value the label answer held, most often a
      string. */
  datatype InteractionResponse =
    InteractionResponse(drug: Option<string>, description: Json, recommendations: string)

  /** `{"inserted_id": id}` or `{"inserted_id": None, "error": message}`. */
  datatype ArticleResponse = Inserted(insertedId: string) | NotInserted(error: string)

  const NoDrugsMessage: string := "Brak leków w zapytaniu"
  const EmptyArticleMessage: string := "Pusty tekst artykułu"
  const DummyId: string := "DummyID"

  /** The answer to a request without drugs. */
  function NoDrugsResponse(): (r: InteractionResponse)
    ensures r.drug.None? && r.description == JStr("") && r.recommendations == NoDrugsMessage
  {
    InteractionResponse(None, JStr(""), NoDrugsMessage)
  }

  /** The fields of the first entry of `results` when the answer is a dict
      whose `results` is a non-empty list starting with a dict. */
  function FirstEntry(raw: Json): (e: Option<map<string, Json>>)
    ensures e.Some? <==>
              && raw.JObj? && "results" in raw.fields
              && raw.fields["results"].JArr? && raw.fields["results"].items != []
              && raw.fields["results"].items[0].JObj?
    ensures e.Some? ==> e.value == raw.fields["results"].items[0].fields
  {
    if raw.JObj? && "results" in raw.fields then
      match raw.fields["results"]
      case JArr(items) =>
        if items != [] && items[0].JObj? then Some(items[0].fields) else None
      case _ => None
    else None
  }

  /** `raw_data["results"][0].get("description", [""])[0]` with IndexError
      and KeyError turned into "": the label text when the answer has the
      expected shape, "" when a key is missing or a list is empty, and a
      TypeError or AttributeError, which nothing catches, when a value has
      a shape the expression cannot handle. Entries after the first and the
      description's later elements are never looked at. */
  function ExtractDescription(raw: Json): (r: Result<Json, PyError>)
    ensures r.Failure? ==> r.error == TypeError || r.error == AttributeError
    ensures !raw.JObj? ==> r == Failure(TypeError)
    ensures raw.JObj? && "results" !in raw.fields ==> r == Success(JStr(""))
    ensures raw.JObj? && "results" in raw.fields ==>
              var results := raw.fields["results"];
              && (results == JArr([]) ==> r == Success(JStr("")))
              && (results.JObj? ==> r == Success(JStr("")))
              && (results == JStr("") ==> r == Success(JStr("")))
              && (results.JStr? && results.s != [] ==> r == Failure(AttributeError))
              && (Scalar(results) ==> r == Failure(TypeError))
    ensures FirstEntry(raw).Some? && "description" !in FirstEntry(raw).value ==>
              r == Success(JStr(""))
    ensures FirstEntry(raw).Some? && "description" in FirstEntry(raw).value &&
            FirstEntry(raw).value["description"].JArr? ==>
              var ds := FirstEntry(raw).value["description"].items;
              r == Success(if ds == [] then JStr("") else ds[0])
    ensures FirstEntry(raw).Some? && "description" in FirstEntry(raw).value ==>
              var d := FirstEntry(raw).value["description"];
              && (d.JObj? ==> r == Success(JStr("")))
              && (d.JStr? ==> r == Success(if d.s == [] then JStr("") else JStr([d.s[0]])))
              && (Scalar(d) ==> r == Failure(TypeError))
    ensures raw.JObj? && "results" in raw.fields && raw.fields["results"].JArr? &&
            raw.fields["results"].items != [] && !raw.fields["results"].items[0].JObj? ==>
              r == Failure(AttributeError)
  {
    var looked :=
      var results :- Subscript(raw, KStr("results"));
      var first :- Subscript(results, KInt(0));
      var descriptions :- Get(first, "description", JArr([JStr("")]));
      Subscript(descriptions, KInt(0));
    match looked
    case Success(v) => Success(v)
    case Failure(e) => if e == IndexError || e == KeyError then Success(JStr("")) else Failure(e)
  }

  /** The description the interaction check reads from the label answer
      for `name`. */
  function Described(svc: Collaborators, name: string): (r: Result<Json, PyError>) {
    ExtractDescription(LabelOrEmpty(svc.labelApi(name)))
  }

  /** `POST /check_interactions`. An empty list is answered at once and no
      collaborator is called. Otherwise only the first drug is looked up;
      its description is taken from the label answer; then, in this order,
      the first drug and the description are saved and the whole list and
      the description are sent to the chat model, each exactly once. A
      description the expression cannot read ends the request with the
      Python exception, after the lookup and before anything is saved. */
  method CheckInteractions(svc: Collaborators, req: DrugListRequest)
    returns (r: Result<InteractionResponse, PyError>)
    modifies svc`trace, svc`drugs
    ensures req.drugList == [] ==>
              r == Success(NoDrugsResponse()) && svc.trace == old(svc.trace) && svc.drugs == old(svc.drugs)
    ensures req.drugList != [] && Described(svc, req.drugList[0]).Failure? ==>
              && r == Failure(Described(svc, req.drugList[0]).error)
              && svc.trace == old(svc.trace) + [FetchLabel(req.drugList[0])]
              && svc.drugs == old(svc.drugs)
    ensures req.drugList != [] && Described(svc, req.drugList[0]).Success? ==>
              var name, description := req.drugList[0], Described(svc, req.drugList[0]).value;
              && r == Success(InteractionResponse(Some(name), description,
                                                  RecommendationText(svc.chat(req.drugList, description))))
              && svc.trace == old(svc.trace) + [FetchLabel(name), SaveDrug(name, description),
                                                Recommend(req.drugList, description)]
              && svc.drugs == old(svc.drugs) + svc.AddedRows(name, description)
  {
    if req.drugList == [] {
      return Success(NoDrugsResponse());
    }
    var name := req.drugList[0];
    var extracted := LookUpDescription(svc, name);
    match extracted
    case Failure(e) =>
      r := Failure(e);
    case Success(description) =>
      var response := SaveAndRecommend(svc, req.drugList, description);
      r := Success(response);
  }

  /** The first half of the interaction check: one label request for the
      drug, and the description read from its answer. */
  method LookUpDescription(svc: Collaborators, name: string) returns (extracted: Result<Json, PyError>)
    modifies svc`trace
    ensures extracted == Described(svc, name)
    ensures svc.trace == old(svc.trace) + [FetchLabel(name)]
  {
    var raw := svc.FetchDrugDataFda(name);
    extracted := ExtractDescription(raw);
  }

  /** The second half of the interaction check, once the description is
      known: save the first drug with it, then ask for advice on the whole
      list, and answer with the three. */
  method SaveAndRecommend(svc: Collaborators, drugList: seq<string>, description: Json)
    returns (response: InteractionResponse)
    requires drugList != []
    modifies svc`trace, svc`drugs
    ensures response == InteractionResponse(Some(drugList[0]), description,
                                            RecommendationText(svc.chat(drugList, description)))
    ensures svc.trace == old(svc.trace) + [SaveDrug(drugList[0], description), Recommend(drugList, description)]
    ensures svc.drugs == old(svc.drugs) + svc.AddedRows(drugList[0], description)
  {
    svc.SaveDrugPostgres(drugList[0], description);
    var recommendations := svc.GetDrugRecommendations(drugList, description);
    response := InteractionResponse(Some(drugList[0]), description, recommendations);
  }

  /** The reply of `POST /save_article` once the store call is known:
      blank text (after stripping) is refused with a fixed message;
      otherwise the dummy id when the store call returned, or the store's
      error message when it raised. */
  function SaveArticleReply(text: string, storeError: Option<string>): (r: ArticleResponse)
    ensures Strip(text) == "" ==> r == NotInserted(EmptyArticleMessage)
    ensures Strip(text) != "" ==> (r == Inserted(DummyId) <==> storeError.None?)
    ensures Strip(text) != "" && storeError.Some? ==> r == NotInserted(storeError.value)
  {
    if Strip(text) == "" then NotInserted(EmptyArticleMessage)
    else
      match storeError
      case None => Inserted(DummyId)
      case Some(message) => NotInserted(message)
  }

  /** `POST /save_article`. Blank text is refused without touching the
      store; otherwise the stripped text goes to the store once. Because
      the store catches its own failures, the reply is the dummy id even
      when nothing was inserted. */
  method SaveArticle(svc: Collaborators, req: ArticleRequest) returns (resp: ArticleResponse)
    modifies svc`trace, svc`articles
    ensures resp == SaveArticleReply(req.articleText, None)
    ensures Strip(req.articleText) == "" ==>
              resp == NotInserted(EmptyArticleMessage) &&
              svc.trace == old(svc.trace) && svc.articles == old(svc.articles)
    ensures Strip(req.articleText) != "" ==>
              var text := Strip(req.articleText);
              && resp == Inserted(DummyId)
              && svc.trace == old(svc.trace) + [StoreArticle(text)]
              && svc.articles == old(svc.articles) +
                   (if svc.mongoAccepts(DataStore.MongoUri(svc.env), text) then [text] else [])
  {
    var text := Strip(req.articleText);
    if text == "" {
      return NotInserted(EmptyArticleMessage);
    }
    svc.SaveArticleMongo(text);
    // save_article_mongo raises nothing, so the except branch is not taken
    resp := SaveArticleReply(req.articleText, None);
  }

  /** A label lookup for Aspirin that finds one entry, and a chat model
      that answers `advice`: the response carries the drug, the label text
      and the stripped advice, and the calls come in order. */
  method AspirinScenario(advice: string) {
    var answer := JObj(map["results" := JArr([JObj(map["description" := JArr([JStr("Pain reliever")])])])]);
    var svc := new Collaborators(map[],
      (name: string) => if name == "Aspirin" then Some(answer) else None,
      (drugs: seq<string>, description: Json) => Some(advice),
      (config: map<string, string>, name: string, interactions: Json) => true,
      (uri: string, text: string) => true,
      [], []);
    assert ExtractDescription(answer) == Success(JStr("Pain reliever"));
    assert svc.labelApi("Aspirin") == Some(answer);
    assert LabelOrEmpty(svc.labelApi("Aspirin")) == answer;
    var r := CheckInteractions(svc, DrugListRequest(["Aspirin"]));
    assert r == Success(InteractionResponse(Some("Aspirin"), JStr("Pain reliever"), Strip(advice)));
    assert svc.trace == [FetchLabel("Aspirin"), SaveDrug("Aspirin", JStr("Pain reliever")),
                         Recommend(["Aspirin"], JStr("Pain reliever"))];
  }

  /** A failed lookup for an unknown drug: the description is "" and the
      chat model is still asked. */
  method UnknownDrugScenario() {
    var svc := new Collaborators(map[],
      (name: string) => None,
      (drugs: seq<string>, description: Json) => None,
      (config: map<string, string>, name: string, interactions: Json) => true,
      (uri: string, text: string) => true,
      [], []);
    var r := CheckInteractions(svc, DrugListRequest(["Unknown123"]));
    assert r == Success(InteractionResponse(Some("Unknown123"), JStr(""), RecommendationFallback));
    assert svc.drugs == [];
    assert svc.trace == [FetchLabel("Unknown123"), SaveDrug("Unknown123", JStr("")),
                         Recommend(["Unknown123"], JStr(""))];
  }
}
