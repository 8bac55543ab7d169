/** The drug-list field of the front end: the text typed by the user is
    split at commas, each field is stripped of surrounding whitespace and
    blank fields are dropped. The result is what the front end sends to
    the interaction check. */
module DrugInput {
  import opened Wrappers
  import opened PyStr
  import opened PyJson
  import opened Services
  import opened Main

  /** The stripped fields that are not blank, in order. */
  function KeepNonBlank(fields: seq<string>): (r: seq<string>)
    ensures |r| <= |fields|
    ensures forall i :: 0 <= i < |r| ==> r[i] != "" && Trimmed(r[i])
    decreases |fields|
  {
    if fields == [] then []
    else
      var t := Strip(fields[0]);
      (if t == "" then [] else [t]) + KeepNonBlank(fields[1..])
  }

  /** The drug list the front end builds from the text `input`: no element
      is empty or has whitespace at either end. */
  function ParseDrugList(input: string): (r: seq<string>)
    ensures forall i :: 0 <= i < |r| ==> r[i] != "" && Trimmed(r[i])
  {
    KeepNonBlank(Split(input, ','))
  }

  /** No drug holds a comma, and there are at most as many drugs as there
      are fields between commas. */
  lemma ParseDrugListFields(input: string)
    ensures forall i :: 0 <= i < |ParseDrugList(input)| ==> ',' !in ParseDrugList(input)[i]
    ensures |ParseDrugList(input)| <= Count(input, ',') + 1
  {
    SplitCount(input, ',');
    SplitFieldsLackSeparator(input, ',');
    KeepNonBlankCommaFree(Split(input, ','));
  }

  /** Stripping and dropping blank fields introduces no comma. */
  lemma {:induction false} KeepNonBlankCommaFree(fields: seq<string>)
    requires forall j :: 0 <= j < |fields| ==> ',' !in fields[j]
    ensures forall i :: 0 <= i < |KeepNonBlank(fields)| ==> ',' !in KeepNonBlank(fields)[i]
    decreases |fields|
  {
    if fields != [] {
      var tail := fields[1..];
      assert forall j :: 0 <= j < |tail| ==> tail[j] == fields[j + 1];
      KeepNonBlankCommaFree(tail);
      var rest := KeepNonBlank(tail);
      var t := Strip(fields[0]);
      StripAddsNothing(fields[0], ',');
      var head := if t == "" then [] else [t];
      LackAppend(head, rest, ',');
      assert KeepNonBlank(fields) == head + rest;
    }
  }

  /** The concatenation of two lists of `c`-free strings is `c`-free. */
  lemma LackAppend(xs: seq<string>, ys: seq<string>, c: char)
    requires forall i :: 0 <= i < |xs| ==> c !in xs[i]
    requires forall i :: 0 <= i < |ys| ==> c !in ys[i]
    ensures forall i :: 0 <= i < |xs + ys| ==> c !in (xs + ys)[i]
  {
    forall i | 0 <= i < |xs + ys| ensures c !in (xs + ys)[i] {
      if i >= |xs| {
        assert (xs + ys)[i] == ys[i - |xs|];
      }
    }
  }

  /** Keeping distributes over concatenation of field lists. */
  lemma {:induction false} KeepNonBlankAppend(f: seq<string>, g: seq<string>)
    ensures KeepNonBlank(f + g) == KeepNonBlank(f) + KeepNonBlank(g)
    decreases |f|
  {
    if f != [] {
      assert (f + g)[1..] == f[1..] + g;
      KeepNonBlankAppend(f[1..], g);
    } else {
      assert f + g == g;
    }
  }

  /** Order: the drugs before a comma come before the drugs after it, and
      the comma only separates them. */
  lemma ParseAtComma(a: string, b: string)
    ensures ParseDrugList(a + "," + b) == ParseDrugList(a) + ParseDrugList(b)
  {
    SplitAtSeparator(a, b, ',');
    KeepNonBlankAppend(Split(a, ','), Split(b, ','));
  }

  /** Text without a comma is one field: one drug, the stripped text, if it
      is not blank, and no drug otherwise. */
  lemma ParseSingleField(input: string)
    requires ',' !in input
    ensures ParseDrugList(input) == if Strip(input) == "" then [] else [Strip(input)]
  {
    SplitWithoutSeparator(input, ',');
  }

  /** Nothing but commas and whitespace. */
  predicate Blank(input: string) {
    forall i :: 0 <= i < |input| ==> input[i] == ',' || IsSpace(input[i])
  }

  /** The list is empty exactly when the text holds nothing but commas and
      whitespace; an empty list is what the backend answers with its
      no-drugs response. */
  lemma {:induction false} ParseEmptyIffBlank(input: string)
    ensures ParseDrugList(input) == [] <==> Blank(input)
    decreases |input|
  {
    if ',' !in input {
      ParseSingleField(input);
      assert Blank(input) <==> AllSpace(input);
    } else {
      var k :| 0 <= k < |input| && input[k] == ',';
      var a, b := input[..k], input[k + 1..];
      assert input == a + "," + b;
      ParseAtComma(a, b);
      ParseEmptyIffBlank(a);
      ParseEmptyIffBlank(b);
      BlankAtComma(a, b);
    }
  }

  lemma BlankAtComma(a: string, b: string)
    ensures Blank(a + "," + b) <==> Blank(a) && Blank(b)
  {
    var s := a + "," + b;
    assert forall i :: 0 <= i < |a| ==> s[i] == a[i];
    assert forall i :: 0 <= i < |b| ==> s[|a| + 1 + i] == b[i];
    if Blank(a) && Blank(b) {
      forall i | 0 <= i < |s| ensures s[i] == ',' || IsSpace(s[i]) {
        if i > |a| {
          assert s[i] == b[i - |a| - 1];
        }
      }
    }
  }

  /** Joining drug names with ", " and parsing the result gives the names
      back, provided each is non-blank, has no surrounding whitespace and
      no comma. */
  lemma {:induction false} ParseJoin(names: seq<string>)
    requires forall i :: 0 <= i < |names| ==> names[i] != "" && Trimmed(names[i]) && ',' !in names[i]
    ensures ParseDrugList(Join(names, ", ")) == names
    decreases |names|
  {
    if names == [] {
      ParseSingleField("");
    } else if |names| == 1 {
      ParseOneName(names[0]);
    } else {
      var tail := Join(names[1..], ", ");
      JoinCommaSpace(names);
      calc {
        ParseDrugList(Join(names, ", "));
        ParseDrugList(names[0] + "," + (" " + tail));
        { ParseAtComma(names[0], " " + tail); }
        ParseDrugList(names[0]) + ParseDrugList(" " + tail);
        { ParseOneName(names[0]); LeadingSpaceIgnored(tail); }
        [names[0]] + ParseDrugList(tail);
        { ParseJoin(names[1..]); }
        [names[0]] + names[1..];
        names;
      }
    }
  }

  /** A single well-formed name parses to itself. */
  lemma ParseOneName(name: string)
    requires name != "" && Trimmed(name) && ',' !in name
    ensures ParseDrugList(name) == [name]
  {
    ParseSingleField(name);
    TrimmedIsFixed(name);
  }

  lemma JoinCommaSpace(names: seq<string>)
    requires |names| > 1
    ensures Join(names, ", ") == names[0] + "," + (" " + Join(names[1..], ", "))
  {
    var tail := Join(names[1..], ", ");
    assert Join(names, ", ") == names[0] + ", " + tail;
    assert ", " + tail == "," + (" " + tail);
  }

  /** A space in front of the text does not change the parse. */
  lemma LeadingSpaceIgnored(s: string)
    ensures ParseDrugList(" " + s) == ParseDrugList(s)
  {
    var f := Split(s, ',');
    SplitPrepend(' ', s, ',');
    assert " " + s == [' '] + s;
    assert f == [f[0]] + f[1..];
    KeepNonBlankSpaceHead(f[0], f[1..]);
  }

  lemma StripLeadingSpace(x: string)
    ensures Strip(" " + x) == Strip(x)
  {
    assert (" " + x)[1..] == x;
    assert TrimStart(" " + x) == TrimStart(x);
  }

  lemma KeepNonBlankSpaceHead(x: string, rest: seq<string>)
    ensures KeepNonBlank([" " + x] + rest) == KeepNonBlank([x] + rest)
  {
    StripLeadingSpace(x);
    assert ([" " + x] + rest)[0] == " " + x && ([" " + x] + rest)[1..] == rest;
    assert ([x] + rest)[0] == x && ([x] + rest)[1..] == rest;
  }

  /** The "Check" button: the typed text is parsed and the list is sent to
      the interaction check. Text with nothing but commas and whitespace
      gets the no-drugs answer without any collaborator call; any other
      text has its first drug looked up first. */
  method SubmitDrugInput(svc: Collaborators, input: string) returns (r: Result<InteractionResponse, PyError>)
    modifies svc`trace, svc`drugs
    ensures Blank(input) ==>
              r == Success(NoDrugsResponse()) && svc.trace == old(svc.trace) && svc.drugs == old(svc.drugs)
    ensures !Blank(input) ==> ParseDrugList(input) != []
    ensures !Blank(input) && Described(svc, ParseDrugList(input)[0]).Failure? ==>
              var d := ParseDrugList(input);
              && r == Failure(Described(svc, d[0]).error)
              && svc.trace == old(svc.trace) + [FetchLabel(d[0])]
              && svc.drugs == old(svc.drugs)
    ensures !Blank(input) && Described(svc, ParseDrugList(input)[0]).Success? ==>
              var d := ParseDrugList(input);
              var description := Described(svc, d[0]).value;
              && r == Success(InteractionResponse(Some(d[0]), description,
                                                  RecommendationText(svc.chat(d, description))))
              && svc.trace == old(svc.trace) + [FetchLabel(d[0]), SaveDrug(d[0], description),
                                                Recommend(d, description)]
              && svc.drugs == old(svc.drugs) + svc.AddedRows(d[0], description)
  {
    var drugList := ParseDrugList(input);
    ParseEmptyIffBlank(input);
    r := CheckInteractions(svc, DrugListRequest(drugList));
  }
}
