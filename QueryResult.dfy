/** `post_process_query_result`: turns the platform's raw query reply into a
    record of the summary and one entry per matched passage, naming the
    document each passage comes from. */
module QueryResult {
  import opened PyRuntime

  /** One entry of `matches`. */
  datatype Match = Match(srcDocId: Json, srcDocName: Json, text: string)

  /** The `{summary, matches}` record. */
  datatype Simplified = Simplified(summary: string, matches: seq<Match>)

  /** What the function returns for a format: the Markdown text rendered from
      the record, the record as fenced JSON text, or None for any other format. */
  datatype Output = MarkdownOf(record: Simplified) | JsonOf(record: Simplified) | NoOutput

  /** The elements `for x in j` visits. A non-empty dict yields its keys, which
      are strings; subscripting the first of them with 'documentIndex' raises
      TypeError, which is the outcome given here. */
  function Elements(j: Json): (r: Result<seq<Json>>)
    ensures j.JArr? ==> r == Ok(j.items)
    ensures j.JStr? ==> r.Ok? && |r.value| == |j.s| && forall i :: 0 <= i < |j.s| ==> r.value[i] == JStr([j.s[i]])
    ensures j.JObj? ==> (r.Ok? <==> |j.fields| == 0) && (r.Ok? ==> r.value == []) && (r.Err? ==> r.error == TypeError)
    ensures j.JNull? || j.JBool? || j.JInt? || j.JFloat? ==> r == Err(TypeError)
  {
    match j
    case JArr(xs) => Ok(xs)
    case JStr(s) => Ok(seq(|s|, i requires 0 <= i < |s| => JStr([s[i]])))
    case JObj(m) => if |m| == 0 then Ok([]) else Err(TypeError)
    case _ => Err(TypeError)
  }

  /** One turn of the loop over `answers['response']`: the match record, after
      the lookups the Markdown line also makes (`answer['score']`, and
      `md2text(answer['text'])`, which fails on a non-string). */
  function MatchOf(answers: Json, answer: Json): (r: Result<Match>)
    ensures r.Ok? ==>
      && answer.JObj?
      && answer.fields.Keys >= {"documentIndex", "text", "score"}
      && answer.fields["documentIndex"] == r.value.srcDocId
      && answer.fields["text"] == JStr(r.value.text)
    ensures answer.JObj? && "documentIndex" !in answer.fields ==> r == Err(KeyError(JStr("documentIndex")))
    ensures answer.JObj? && "score" !in answer.fields ==> r.Err?
  {
    var docIndex :- Subscript(answer, JStr("documentIndex"));
    var documents :- Subscript(answers, JStr("document"));
    var document :- Subscript(documents, docIndex);
    var docName :- Subscript(document, JStr("id"));
    var text :- Subscript(answer, JStr("text"));
    var score :- Subscript(answer, JStr("score"));
    if text.JStr? then Ok(Match(docIndex, docName, text.s)) else Err(AttributeError)
  }

  /** The loop: the matches in order, or the first failure. */
  function MatchesOf(answers: Json, items: seq<Json>): (r: Result<seq<Match>>)
    ensures r.Ok? ==> |r.value| == |items|
    ensures |items| > 0 && MatchOf(answers, items[0]).Err? ==> r == Err(MatchOf(answers, items[0]).error)
    decreases |items|
  {
    if |items| == 0 then Ok([])
    else
      var first :- MatchOf(answers, items[0]);
      var rest :- MatchesOf(answers, items[1..]);
      Ok([first] + rest)
  }

  /** The summary: the `text` of the first entry of the `summary` list,
      which `textwrap.wrap` then requires to be a string. */
  function SummaryOf(answers: Json): (r: Result<string>)
    ensures r.Ok? ==>
      && answers.JObj? && "summary" in answers.fields
      && Subscript(answers.fields["summary"], JInt(0)).Ok?
      && Subscript(Subscript(answers.fields["summary"], JInt(0)).value, JStr("text")) == Ok(JStr(r.value))
    ensures answers.JObj? && "summary" !in answers.fields ==> r == Err(KeyError(JStr("summary")))
    ensures answers.JObj? && "summary" in answers.fields && answers.fields["summary"] == JArr([]) ==> r == Err(IndexError)
  {
    var summaries :- Subscript(answers, JStr("summary"));
    var first :- Subscript(summaries, JInt(0));
    var text :- Subscript(first, JStr("text"));
    if text.JStr? then Ok(text.s) else Err(AttributeError)
  }

  /** The first response set of the reply. */
  function AnswersOf(queryResult: Json): (r: Result<Json>)
    ensures queryResult.JObj? && "responseSet" !in queryResult.fields ==> r == Err(KeyError(JStr("responseSet")))
    ensures queryResult.JObj? && "responseSet" in queryResult.fields && queryResult.fields["responseSet"].JArr? ==>
      var sets := queryResult.fields["responseSet"].items;
      (r.Ok? <==> |sets| > 0) && (r.Ok? ==> r.value == sets[0]) && (r.Err? ==> r.error == IndexError)
    ensures queryResult.JArr? || queryResult.JNull? ==> r == Err(TypeError)
  {
    var responseSet :- Subscript(queryResult, JStr("responseSet"));
    Subscript(responseSet, JInt(0))
  }

  /** Matches already collected, in front of the outcome of the rest of the loop. */
  function Prefixed(done: seq<Match>, rest: Result<seq<Match>>): Result<seq<Match>>
  {
    match rest
    case Ok(ms) => Ok(done + ms)
    case Err(e) => Err(e)
  }

  /** The record the function builds. */
  function Normalize(queryResult: Json): (r: Result<Simplified>)
    ensures r.Ok? ==> queryResult.JObj? && "responseSet" in queryResult.fields
    ensures AnswersOf(queryResult).Err? ==> r == Err(AnswersOf(queryResult).error)
    ensures r.Ok? ==> AnswersOf(queryResult).Ok? && SummaryOf(AnswersOf(queryResult).value) == Ok(r.value.summary)
  {
    var answers :- AnswersOf(queryResult);
    var summary :- SummaryOf(answers);
    var responses :- Subscript(answers, JStr("response"));
    var items :- Elements(responses);
    var matches :- MatchesOf(answers, items);
    Ok(Simplified(summary, matches))
  }

  /** The whole function: normalise, then choose the rendering by the
      lower-cased format. */
  function PostProcess(queryResult: Json, format: string): (r: Result<Output>)
    ensures r.Ok? <==> Normalize(queryResult).Ok?
    ensures r.Ok? && Lower(format) == "markdown" ==> r.value == MarkdownOf(Normalize(queryResult).value)
    ensures r.Ok? && Lower(format) == "json" ==> r.value == JsonOf(Normalize(queryResult).value)
    ensures r.Ok? && Lower(format) != "markdown" && Lower(format) != "json" ==> r.value == NoOutput
  {
    var record :- Normalize(queryResult);
    var f := Lower(format);
    Ok(if f == "markdown" then MarkdownOf(record) else if f == "json" then JsonOf(record) else NoOutput)
  }

  /** One turn of the loop, at position `i` of the elements. */
  lemma MatchesOfUnfold(answers: Json, items: seq<Json>, i: nat)
    requires i < |items|
    ensures MatchesOf(answers, items[i..]) ==
      match MatchOf(answers, items[i])
      case Err(e) => Err(e)
      case Ok(m) => Prefixed([m], MatchesOf(answers, items[i + 1..]))
  {
    assert items[i..][0] == items[i];
    assert items[i..][1..] == items[i + 1..];
  }

  /** Regrouping the collected matches; it saves the solver a step in the loop below. */
  lemma PrefixedPrefixed(a: seq<Match>, b: seq<Match>, rest: Result<seq<Match>>)
    ensures Prefixed(a, Prefixed(b, rest)) == Prefixed(a + b, rest)
  {
    if rest.Ok? {
      assert a + (b + rest.value) == (a + b) + rest.value;
    }
  }

  /** The format only chooses the rendering: the function fails exactly when
      the reply does not normalise, with the same error, and otherwise
      renders the normalised record. */
  lemma PostProcessFailsAsNormalize(queryResult: Json, format: string)
    ensures PostProcess(queryResult, format).Err? <==> Normalize(queryResult).Err?
    ensures PostProcess(queryResult, format).Err? ==> PostProcess(queryResult, format).error == Normalize(queryResult).error
    ensures PostProcess(queryResult, format).Ok? ==>
      PostProcess(queryResult, format).value in {MarkdownOf(Normalize(queryResult).value), JsonOf(Normalize(queryResult).value), NoOutput}
  {
  }

  /** Nothing collected yet: the outcome is that of the whole list. */
  lemma PrefixedNothing(rest: Result<seq<Match>>)
    ensures Prefixed([], rest) == rest
  {
    if rest.Ok? {
      assert [] + rest.value == rest.value;
    }
  }

  /** Nothing left: the outcome is what was collected. */
  lemma PrefixedAll(done: seq<Match>)
    ensures Prefixed(done, Ok([])) == Ok(done)
  {
    assert done + [] == done;
  }

  /** One turn of the loop below: an element without a match ends the loop
      with that element's error; otherwise its match joins those collected. */
  lemma CollectMatchesStep(answers: Json, items: seq<Json>, matches: seq<Match>, i: nat)
    requires i < |items|
    requires MatchesOf(answers, items) == Prefixed(matches, MatchesOf(answers, items[i..]))
    ensures MatchOf(answers, items[i]).Err? ==> MatchesOf(answers, items) == Err(MatchOf(answers, items[i]).error)
    ensures MatchOf(answers, items[i]).Ok? ==>
      MatchesOf(answers, items) == Prefixed(matches + [MatchOf(answers, items[i]).value], MatchesOf(answers, items[i + 1..]))
  {
    MatchesOfUnfold(answers, items, i);
    var m := MatchOf(answers, items[i]);
    if m.Ok? {
      PrefixedPrefixed(matches, [m.value], MatchesOf(answers, items[i + 1..]));
    }
  }

  /** The loop of `post_process_query_result` over `answers['response']`,
      appending one match per element. */
  method CollectMatches(answers: Json, items: seq<Json>) returns (r: Result<seq<Match>>)
    ensures r == MatchesOf(answers, items)
  {
    var matches: seq<Match> := [];
    var i := 0;
    assert items[0..] == items;
    PrefixedNothing(MatchesOf(answers, items));
    while i < |items|
      invariant 0 <= i <= |items|
      invariant MatchesOf(answers, items) == Prefixed(matches, MatchesOf(answers, items[i..]))
    {
      CollectMatchesStep(answers, items, matches, i);
      var m := MatchOf(answers, items[i]);
      if m.Err? {
        return Err(m.error);
      }
      matches := matches + [m.value];
      i := i + 1;
    }
    assert items[i..] == [];
    PrefixedAll(matches);
    r := Ok(matches);
  }

  /** `post_process_query_result(query_result, format)`. */
  method PostProcessQueryResult(queryResult: Json, format: string) returns (r: Result<Output>)
    ensures r == PostProcess(queryResult, format)
  {
    var answers :- AnswersOf(queryResult);
    var summary :- SummaryOf(answers);
    var responses :- Subscript(answers, JStr("response"));
    var items :- Elements(responses);
    var matches :- CollectMatches(answers, items);
    var f := Lower(format);
    if f == "markdown" {
      r := Ok(MarkdownOf(Simplified(summary, matches)));
    } else if f == "json" {
      r := Ok(JsonOf(Simplified(summary, matches)));
    } else {
      r := Ok(NoOutput);
    }
  }

  /** The loop succeeds exactly when every element yields a match, and then
      gives one match per element, in order. */
  lemma {:induction false} MatchesOfPerElement(answers: Json, items: seq<Json>)
    ensures MatchesOf(answers, items).Ok? <==> forall i :: 0 <= i < |items| ==> MatchOf(answers, items[i]).Ok?
    ensures MatchesOf(answers, items).Ok? ==>
      && |MatchesOf(answers, items).value| == |items|
      && forall i :: 0 <= i < |items| ==> MatchOf(answers, items[i]) == Ok(MatchesOf(answers, items).value[i])
  {
    if items != [] {
      MatchesOfPerElement(answers, items[1..]);
      if MatchOf(answers, items[0]).Ok? && MatchesOf(answers, items[1..]).Ok? {
        forall i | 0 <= i < |items| ensures MatchOf(answers, items[i]) == Ok(MatchesOf(answers, items).value[i]) {
          if i > 0 { assert items[i] == items[1..][i - 1]; }
        }
      } else if MatchOf(answers, items[0]).Ok? {
        var k :| 0 <= k < |items[1..]| && !MatchOf(answers, items[1..][k]).Ok?;
        assert items[k + 1] == items[1..][k];
      }
    }
  }

  /** The failure a malformed element causes is the failure of the first
      element that does not yield a match. */
  lemma {:induction false} MatchesOfFirstFailure(answers: Json, items: seq<Json>, k: nat)
    requires k < |items| && MatchOf(answers, items[k]).Err?
    requires forall i :: 0 <= i < k ==> MatchOf(answers, items[i]).Ok?
    ensures MatchesOf(answers, items) == Err(MatchOf(answers, items[k]).error)
  {
    if k > 0 {
      forall i | 0 <= i < k - 1 ensures MatchOf(answers, items[1..][i]).Ok? {
        assert items[1..][i] == items[i + 1];
      }
      MatchesOfFirstFailure(answers, items[1..], k - 1);
    }
  }

  /** A match's document name is found by using its `documentIndex` as a
      Python index into the reply's document list: the index must lie in
      range (counting from the end when negative), and the name is that
      document's `id`. */
  lemma MatchNamesIndexedDocument(answers: Json, answer: Json, docs: seq<Json>)
    requires Subscript(answers, JStr("document")) == Ok(JArr(docs))
    requires MatchOf(answers, answer).Ok?
    ensures var m := MatchOf(answers, answer).value;
      && Subscript(answer, JStr("documentIndex")) == Ok(m.srcDocId)
      && AsIndex(m.srcDocId).Some?
      && PyIndex(AsIndex(m.srcDocId).value, |docs|).Some?
      && Subscript(docs[PyIndex(AsIndex(m.srcDocId).value, |docs|).value], JStr("id")) == Ok(m.srcDocName)
      && Subscript(answer, JStr("text")) == Ok(JStr(m.text))
  {
  }

  /** The normalised record: the summary is `responseSet[0].summary[0].text`,
      and `matches` has one entry per element of `responseSet[0].response`,
      in the same order, each naming the element's indexed document. */
  lemma NormalizeShape(queryResult: Json)
    requires Normalize(queryResult).Ok?
    ensures var rec := Normalize(queryResult).value;
      var answers := AnswersOf(queryResult).value;
      && AnswersOf(queryResult).Ok?
      && Subscript(Subscript(Subscript(answers, JStr("summary")).value, JInt(0)).value, JStr("text")) == Ok(JStr(rec.summary))
      && Subscript(answers, JStr("response")).Ok?
      && var items := Elements(Subscript(answers, JStr("response")).value);
      && items.Ok?
      && |rec.matches| == |items.value|
      && forall i :: 0 <= i < |items.value| ==> MatchOf(answers, items.value[i]) == Ok(rec.matches[i])
  {
    var answers := AnswersOf(queryResult).value;
    var items := Elements(Subscript(answers, JStr("response")).value).value;
    MatchesOfPerElement(answers, items);
  }

  /** A passage yields a match exactly when every lookup of the loop's turn
      succeeds and its `text` is a string: its `documentIndex`, the reply's
      `document` list, the document that index selects and that document's
      `id`, its `text` and its `score`. The match then holds the index, the
      `id` and the text. */
  lemma MatchOfSucceeds(answers: Json, answer: Json)
    ensures var docIndex := Subscript(answer, JStr("documentIndex"));
      var documents := Subscript(answers, JStr("document"));
      var document := if docIndex.Ok? && documents.Ok? then Subscript(documents.value, docIndex.value) else Err(TypeError);
      var docName := if document.Ok? then Subscript(document.value, JStr("id")) else Err(TypeError);
      var text := Subscript(answer, JStr("text"));
      var wellFormed := docIndex.Ok? && documents.Ok? && document.Ok? && docName.Ok? &&
        text.Ok? && text.value.JStr? && Subscript(answer, JStr("score")).Ok?;
      && (MatchOf(answers, answer).Ok? <==> wellFormed)
      && (wellFormed ==> MatchOf(answers, answer).value == Match(docIndex.value, docName.value, text.value.s))
  {
  }

  /** The summary is found exactly when `summary[0]['text']` can be looked up
      and is a string, and it is that string. */
  lemma SummaryOfSucceeds(answers: Json)
    ensures var summaries := Subscript(answers, JStr("summary"));
      var first := if summaries.Ok? then Subscript(summaries.value, JInt(0)) else Err(TypeError);
      var text := if first.Ok? then Subscript(first.value, JStr("text")) else Err(TypeError);
      && (SummaryOf(answers).Ok? <==> text.Ok? && text.value.JStr?)
      && (text.Ok? && text.value.JStr? ==> SummaryOf(answers).value == text.value.s)
  {
  }

  /** A reply normalises exactly when its first response set is reached, its
      summary is found, its `response` can be iterated and every passage in
      it yields a match. */
  lemma NormalizeSucceeds(queryResult: Json)
    ensures var answers := AnswersOf(queryResult);
      var responses := if answers.Ok? then Subscript(answers.value, JStr("response")) else Err(TypeError);
      var items := if responses.Ok? then Elements(responses.value) else Err(TypeError);
      Normalize(queryResult).Ok? <==>
        && answers.Ok? && SummaryOf(answers.value).Ok? && responses.Ok? && items.Ok?
        && forall i :: 0 <= i < |items.value| ==> MatchOf(answers.value, items.value[i]).Ok?
  {
    var answers := AnswersOf(queryResult);
    if answers.Ok? {
      var responses := Subscript(answers.value, JStr("response"));
      if responses.Ok? && Elements(responses.value).Ok? {
        MatchesOfPerElement(answers.value, Elements(responses.value).value);
      }
    }
  }

  /** A reply with an empty summary list is not normalised: `summary[0]`
      raises IndexError (no placeholder summary is substituted). */
  lemma EmptySummaryRaises(queryResult: Json, answers: Json)
    requires AnswersOf(queryResult) == Ok(answers)
    requires Subscript(answers, JStr("summary")) == Ok(JArr([]))
    ensures Normalize(queryResult) == Err(IndexError)
  {
  }

  /** A passage of document 0, with its text and score. */
  function ExampleAnswer(): Json
  {
    JObj(map["documentIndex" := JInt(0), "text" := JStr("T"), "score" := JFloat(0.5)])
  }

  /** A reply's `responseSet[0]`: summary "S", the one passage above, and one
      document, named "doc-A". */
  function ExampleAnswers(): Json
  {
    JObj(map[
      "summary" := JArr([JObj(map["text" := JStr("S")])]),
      "response" := JArr([ExampleAnswer()]),
      "document" := JArr([JObj(map["id" := JStr("doc-A")])])])
  }

  lemma ExampleMatch()
    ensures MatchOf(ExampleAnswers(), ExampleAnswer()) == Ok(Match(JInt(0), JStr("doc-A"), "T"))
  {
    var answer := ExampleAnswer();
    var answers := ExampleAnswers();
    assert Subscript(answer, JStr("documentIndex")) == Ok(JInt(0));
    var docs := Subscript(answers, JStr("document"));
    assert docs == Ok(JArr([JObj(map["id" := JStr("doc-A")])]));
    assert Subscript(docs.value, JInt(0)) == Ok(JObj(map["id" := JStr("doc-A")]));
    assert Subscript(answer, JStr("text")) == Ok(JStr("T"));
    assert Subscript(answer, JStr("score")).Ok?;
  }

  /** The passage above normalises to one match naming "doc-A". */
  lemma SingleMatchExample()
    ensures Normalize(JObj(map["responseSet" := JArr([ExampleAnswers()])])) ==
      Ok(Simplified("S", [Match(JInt(0), JStr("doc-A"), "T")]))
  {
    ExampleLookups();
    ExampleMatches();
  }

  /** The lookups `post_process_query_result` makes on the example reply. */
  lemma ExampleLookups()
    ensures AnswersOf(JObj(map["responseSet" := JArr([ExampleAnswers()])])) == Ok(ExampleAnswers())
    ensures SummaryOf(ExampleAnswers()) == Ok("S")
    ensures Subscript(ExampleAnswers(), JStr("response")) == Ok(JArr([ExampleAnswer()]))
    ensures Elements(JArr([ExampleAnswer()])) == Ok([ExampleAnswer()])
  {
    assert AnswersOf(JObj(map["responseSet" := JArr([ExampleAnswers()])])) == Ok(ExampleAnswers());
    assert SummaryOf(ExampleAnswers()) == Ok("S");
  }

  /** The example's one passage yields its one match. */
  lemma ExampleMatches()
    ensures MatchesOf(ExampleAnswers(), [ExampleAnswer()]) == Ok([Match(JInt(0), JStr("doc-A"), "T")])
  {
    var m := Match(JInt(0), JStr("doc-A"), "T");
    ExampleMatch();
    assert [ExampleAnswer()][1..] == [] && [ExampleAnswer()][0] == ExampleAnswer();
    assert MatchesOf(ExampleAnswers(), []) == Ok([]);
    assert [m] + [] == [m];
  }
}
