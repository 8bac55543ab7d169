# Drug-interaction backend: the decision rules between the external calls

The system is a small FastAPI backend with a Streamlit front end. A user
types drug names. The backend looks the first one up in the FDA label API,
saves the drug and its label text in PostgreSQL, asks a chat model for
advice on the whole list and answers with the three together. Articles can
be saved to MongoDB. Almost all the work is done by external services. This
model covers the logic that sits between those calls:

- the interaction check (`check_interactions`): the no-drugs short cut, the
  choice of the first drug, how the description is read from the label
  answer, and the order and number of collaborator calls;
- the article upload guard (`save_article`);
- the PostgreSQL configuration check and the MongoDB URI default;
- the front end's parser for the comma-separated drug field.

Modules, one per file:

- `Wrappers` (`wrappers.dfy`): `Option` and `Result`.
- `PyStr` (`py_str.dfy`): Python's `str.strip()`, `str.split(sep)` and
  `sep.join(parts)`, with Python's whitespace set.
- `PyJson` (`py_json.dfy`): a decoded JSON value as Python holds it, and
  `v[k]` and `dict.get` with the exceptions Python raises on a wrong shape.
- `DataStore` (`data_store.dfy`): `get_postgres_config` and
  `get_mongo_uri` as total functions of the environment map.
- `Services` (`services.dfy`): the class `Collaborators`. It holds what
  each external system answers (functions given at construction), the
  call trace, the rows of the `drugs` table and the articles. Its methods
  are `fetch_drug_data_fda`, `save_drug_postgres`, `save_article_mongo`
  and `get_drug_recommendations`, each with the failure handling of the
  source.
- `Main` (`main.dfy`): the request and response types, the description
  extraction, and the two endpoints as methods over a `Collaborators`
  object. Two scenario methods, `AspirinScenario` and
  `UnknownDrugScenario`, call the interaction check on fixed
  collaborators and assert its outcome.
- `DrugInput` (`drug_input.dfy`): the parser of the drug field and the
  "Check" button that sends its result to the interaction check.

The description can be any JSON value. `main.py:54` returns whatever the
first element of the `description` field holds, so `description` is a
`Json` in the response. `main.py:55` catches only `IndexError` and
`KeyError`, which become `""`. A label answer whose shape makes the
expression raise `TypeError` or `AttributeError` is not caught: the model
returns that exception as a `Failure`, and the request ends before
anything is saved.

`save_article_mongo` catches all of its own failures. So the `except`
branch of `save_article` (`main.py:89-90`) can never run, and the endpoint
answers `"DummyID"` even when MongoDB refused the document.
`Main.SaveArticleReply` models the endpoint for either store outcome, and
`Main.SaveArticle` states what the composition actually answers.

## Model

| member | source | states |
|---|---|---|
| `PyStr.IsSpace` | streamlit_app.py:34 | the characters `str.strip()` removes: Python's `isspace` set, from the ASCII space, tab to carriage return and 0x1C-0x1F up to U+3000 |
| `PyStr.TrimStart` | streamlit_app.py:34 | the result is a suffix of the input, everything cut off is whitespace, and the result does not start with whitespace |
| `PyStr.TrimEnd` | streamlit_app.py:34 | the result is a prefix of the input, everything cut off is whitespace, and the result does not end with whitespace |
| `PyStr.Strip` | streamlit_app.py:34 | neither end of the result is whitespace; the result is empty exactly when the input is all whitespace |
| `PyStr.StripIsSlice` | streamlit_app.py:34 | `strip()` keeps a contiguous slice of the input, with only whitespace before and after it |
| `PyStr.StripIdempotent` | streamlit_app.py:34 | stripping a stripped string changes nothing |
| `PyStr.StripAddsNothing` | streamlit_app.py:34 | a character absent from the input is absent from the stripped input |
| `PyStr.FindIndex` | streamlit_app.py:34 | the index of a separator, or the length when the text has none |
| `PyStr.FindIndexFirst` | streamlit_app.py:34 | no character before that index is the separator, so it is the first one |
| `PyStr.Split` | streamlit_app.py:34 | `split(",")` always gives at least one field |
| `PyStr.SplitCount` | streamlit_app.py:34 | `split(",")` gives one more field than there are commas |
| `PyStr.SplitFieldsLackSeparator` | streamlit_app.py:34 | no field of `split(",")` holds a comma |
| `PyStr.SplitPrepend` | streamlit_app.py:34 | a non-separator character in front of the text joins the first field and leaves the other fields alone |
| `PyStr.Join` | data_store.py:19 | `sep.join(parts)`: the parts in order with the separator between neighbours, "" for no parts |
| `PyStr.JoinAppend` | data_store.py:19 | adding a part at the end of a non-empty list adds the separator and that part at the end of the join |
| `PyStr.JoinSplit` | streamlit_app.py:34 | joining the fields with the separator gives back the text that was split |
| `PyStr.SplitAtSeparator` | streamlit_app.py:34 | splitting `a + sep + b` gives the fields of `a` followed by the fields of `b` |
| `PyStr.SplitWithoutSeparator` | streamlit_app.py:34 | text without the separator is one field |
| `PyStr.SplitJoin` | streamlit_app.py:34 | splitting the join of separator-free parts gives the parts back |
| `PyJson.Position` | main.py:54 | an index is in range exactly when `-n <= i < n`; a negative index counts from the end |
| `PyJson.Subscript` | main.py:54 | `v[k]` raises TypeError exactly for a non-subscriptable value or a string key on a list or string, and never AttributeError; on a dict it gives the value of a present string key and KeyError for a missing key or any integer key; on a list or string an index in range (negative ones from the end) gives that element or that one-character string, and one out of range IndexError |
| `PyJson.Get` | main.py:54 | `.get` fails with AttributeError exactly on a non-dict, and otherwise gives the value or the default |
| `DataStore.Unset` | data_store.py:17 | `not os.getenv(key)`: the variable is absent or set to "" |
| `DataStore.MissingAmong` | data_store.py:16-17 | a name is listed exactly when it is among the names checked and unset or empty; the listed names keep the order they were checked in |
| `DataStore.MissingKeys` | data_store.py:16-17 | a name is missing exactly when it is one of the four required names and is unset or empty; the missing names keep the fixed order |
| `DataStore.PostgresConfig` | data_store.py:12-26 | fails exactly when some name is missing, with a message listing them joined by ", "; otherwise exactly the keys host, dbname, user and password, mapped to the four variables, all set and non-empty |
| `DataStore.MongoUri` | data_store.py:28-32 | the URI is "" exactly when MONGO_URI is set to ""; a set variable is used as it is; the local default is used only when it is unset |
| `Services.LabelOrEmpty` | data_fetch.py:17-28 | a failed label request gives `{}` |
| `Services.RecommendationText` | llm_integration.py:35-44 | a failed model call gives "Recommendation generation error."; a reply is stripped, so it has no whitespace at either end |
| `Services.Collaborators.AddedRows` | data_store.py:39-52 | an incomplete configuration or a refused insert adds no row; otherwise exactly the one row (drug name, description) |
| `Services.Collaborators.FetchDrugDataFda` | data_fetch.py:12-28 | one label request is recorded; the answer or `{}` is returned |
| `Services.Collaborators.SaveDrugPostgres` | data_store.py:35-52 | one save call is recorded; the table grows by the row or not at all, and no failure (configuration error included) reaches the caller |
| `Services.Collaborators.SaveArticleMongo` | data_store.py:55-68 | one article call is recorded; the collection grows by the text or not at all, and no failure reaches the caller |
| `Services.Collaborators.GetDrugRecommendations` | llm_integration.py:27-44 | one model call with the whole list and the description is recorded; the reply or the fallback text is returned |
| `Main.NoDrugsResponse` | main.py:45-46 | the no-drugs answer has no drug, an empty description and the message "Brak leków w zapytaniu" |
| `Main.ExtractDescription` | main.py:50-56 | for every shape of the answer: a non-dict answer is a TypeError; "" when `results` is missing (the `{}` failure value included), empty, a dict or an empty string; a non-empty string `results` or a non-dict first entry is an AttributeError, and a null, bool or number `results` a TypeError; with a dict first entry, "" when it has no `description`, or when that is an empty list, a dict or an empty string; the first element of a list description, the first character of a string description, and a TypeError for a null, bool or number description; later entries are ignored, and no exception but TypeError and AttributeError escapes |
| `Main.CheckInteractions` | main.py:36-68 | an empty list gives the no-drugs answer with no call made; otherwise the trace gains exactly lookup(first drug), save(first drug, description), recommend(whole list, description) in that order; the answer's drug, description and recommendations are the first drug, the saved description and the model's text; an unreadable label ends the request after the lookup alone |
| `Main.LookUpDescription` | main.py:50-56 | one label request for the drug is recorded, and the result is the description read from its answer, or the exception that escaped |
| `Main.SaveAndRecommend` | main.py:58-68 | the trace gains the save of the first drug and then the model call for the whole list, in that order; the table gains that drug's row or nothing; the answer carries the first drug, the description and the model's text |
| `Main.SaveArticleReply` | main.py:79-90 | blank text after stripping is refused with "Pusty tekst artykułu"; otherwise "DummyID" exactly when the store call raised nothing, and the store's message when it raised |
| `Main.SaveArticle` | main.py:73-90 | blank text touches no store; other text is stored once in its stripped form, and the answer is "DummyID" whether or not MongoDB accepted it |
| `DrugInput.KeepNonBlank` | streamlit_app.py:34 | no kept element is empty or has whitespace at either end, and there are no more elements than fields |
| `DrugInput.KeepNonBlankAppend` | streamlit_app.py:34 | keeping the non-blank fields of two field lists one after the other gives the two results one after the other |
| `DrugInput.ParseDrugList` | streamlit_app.py:34 | no drug is empty or has whitespace at either end |
| `DrugInput.ParseDrugListFields` | streamlit_app.py:34 | no drug holds a comma, and there are at most commas + 1 drugs |
| `DrugInput.ParseAtComma` | streamlit_app.py:34 | the drugs before a comma come, in order, before the drugs after it |
| `DrugInput.ParseSingleField` | streamlit_app.py:34 | text without a comma gives `[text.strip()]` when that is not blank, and `[]` otherwise |
| `DrugInput.ParseEmptyIffBlank` | streamlit_app.py:34 | the list is empty exactly when the text holds nothing but commas and whitespace |
| `DrugInput.LeadingSpaceIgnored` | streamlit_app.py:34 | a space in front of the text does not change the drug list |
| `DrugInput.ParseJoin` | streamlit_app.py:34 | parsing names joined with ", " gives the names back when each is non-blank, stripped and comma-free |
| `DrugInput.SubmitDrugInput` | streamlit_app.py:32-39 | blank or all-comma text gets the no-drugs answer with no call made; for other text the parsed list is non-empty and the outcome is that of the interaction check on it: a description the label answer cannot yield ends after the lookup of the first drug with the escaped exception and no row; otherwise the trace gains lookup, save and recommend for the first drug and the whole list, the table gains that drug's row or nothing, and the answer carries the first drug, the description and the model's text |

## Left out

- HTTP transport is not modelled: the FastAPI routing, the requests the front end posts to the backend, and the label request's URL and parameters. The front end's button calls the endpoint method directly.
- Services.LabelOrEmpty: every exception of the label request (network, status, decoding) is one `None`; which one happened is not modelled.
- Services.RecommendationText: the prompt text and the model parameters are not modelled. A reply whose content cannot be read counts as a failed call.
- Services.Collaborators.SaveDrugPostgres: the SQL, the driver and the generated row id are not modelled. Whether the database accepts a row is a function given at construction, and the logged messages are not modelled.
- Services.Collaborators.SaveArticleMongo: the driver and the inserted document id are not modelled. Whether MongoDB accepts a document is a function of the URI and the text.
- Main.SaveArticleReply: the text of a store exception (`str(e)`) is a parameter.
- `search_articles` and the vector search: embeddings and similarity scores come from an external model and database, with floating-point scores. `SearchRequest` is declared only.
- `list_drugs`: its result is a database query.
- The text-processing helpers: they depend on external tokenisation and HTML parsing.
- The API-key loading at import time, `load_dotenv()`, and the module-level prints.
- The console messages of the collaborators are not modelled: `fetch_drug_data_fda` (data_fetch.py:27), `get_drug_recommendations` (llm_integration.py:43), `save_drug_postgres` (data_store.py:50, 52) and `save_article_mongo` (data_store.py:66, 68).
- DrugInput.SubmitDrugInput: treats the "Check" section as reachable. As written, streamlit_app.py:16-19 uses typographic quotes and ends the menu list with a `.`, so the file does not parse, and line 26 compares the choice with `"Check drug interactions:"`, which is not a menu label; the model follows the evident intent.
- The Streamlit menu and page rendering.
- JSON numbers carry an integer; only their type matters to the code modelled. Floating-point values are not modelled.
