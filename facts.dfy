/**
 * plugins/facts.py: the fact broadcaster (lines 1-171) and the single-question trivia
 * broadcaster pasted after it (lines 175-378). Network, Telegram and file access are
 * abstracted: a response is a decoded JSON value, a send is a success flag, the fetchers
 * are oracles indexed by call number, and the history file is a `HistoryLog`.
 */
module Facts {
  import opened Wrappers
  import opened Json
  import opened History
  import opened Schedule
  import opened Dedup
  import opened Text
  import opened Options

  /** The fields of the first result after percent- and HTML-decoding. */
  datatype Decoded = Decoded(
    question: string,
    correct: string,
    incorrect: seq<string>,
    category: string,
    difficulty: string)

  /** Why `fetch_trivia_question` fell back, one constructor per `raise` of the code. */
  datatype TriviaError =
    | InvalidResponse
    | InvalidResultsFormat
    | EmptyResults
    | InvalidQuestionFormat
    | MissingField(field: string)
    | UndecodableField(field: string)

  const RequiredFields: seq<string> :=
    ["question", "correct_answer", "incorrect_answers", "category", "difficulty"]

  /** The field the required-fields loop reports first, if any is missing. */
  function FirstMissing(fields: seq<string>, members: seq<(string, Json)>): (r: Option<string>)
    ensures r.None? <==> forall i :: 0 <= i < |fields| ==> HasKey(members, fields[i])
    ensures r.Some? ==> !HasKey(members, r.value)
    ensures r.Some? ==> exists i :: (0 <= i < |fields| && fields[i] == r.value
      && forall j :: 0 <= j < i ==> HasKey(members, fields[j]))
  {
    if fields == [] then None
    else if !HasKey(members, fields[0]) then Some(fields[0])
    else
      var r := FirstMissing(fields[1..], members);
      assert r.Some? ==> exists i :: (1 <= i < |fields| && fields[i] == r.value
        && forall j :: 1 <= j < i ==> HasKey(members, fields[j])) by {
        if r.Some? {
          var i :| 0 <= i < |fields| - 1 && fields[1..][i] == r.value
            && forall j :: 0 <= j < i ==> HasKey(members, fields[1..][j]);
          assert forall j :: 1 <= j < i + 1 ==> HasKey(members, fields[j]) by {
            forall j | 1 <= j < i + 1 ensures HasKey(members, fields[j]) {
              assert fields[j] == fields[1..][j - 1];
            }
          }
        }
      }
      r
  }

  /** `html.unescape(urllib.parse.unquote(v))`; `unquote` raises on anything but a string. */
  function DecodeText(codec: Codec, v: Json): (r: Option<string>)
    ensures r.Some? <==> v.JStr?
  {
    if v.JStr? then Some(codec.unescape(codec.unquote(v.s))) else None
  }

  /** The decoded list comprehension over the items of `incorrect_answers`. */
  function DecodeAll(codec: Codec, items: seq<Json>): (r: Option<seq<string>>)
    ensures r.Some? <==> forall i :: 0 <= i < |items| ==> items[i].JStr?
    ensures r.Some? ==> |r.value| == |items|
    ensures r.Some? ==> forall i :: 0 <= i < |items| ==> r.value[i] == codec.unescape(codec.unquote(items[i].s))
  {
    if items == [] then Some([])
    else if !items[0].JStr? then None
    else match DecodeAll(codec, items[1..])
      case None => None
      case Some(rest) => Some([codec.unescape(codec.unquote(items[0].s))] + rest)
  }

  /** The incorrect answers: a list of strings, or a string (its characters) or an object (its keys). */
  function DecodeAnswers(codec: Codec, v: Json): Option<seq<string>> {
    match IterItems(v)
    case None => None
    case Some(items) => DecodeAll(codec, items)
  }

  /** Decode the five fields in the order of the dict display at facts.py:254-260. */
  function DecodeFields(codec: Codec, members: seq<(string, Json)>): Result<Decoded, TriviaError> {
    var q := DecodeText(codec, Lookup(members, "question").GetOr(JNull));
    var c := DecodeText(codec, Lookup(members, "correct_answer").GetOr(JNull));
    var inc := DecodeAnswers(codec, Lookup(members, "incorrect_answers").GetOr(JNull));
    var cat := DecodeText(codec, Lookup(members, "category").GetOr(JNull));
    var dif := DecodeText(codec, Lookup(members, "difficulty").GetOr(JNull));
    if q.None? then Failure(UndecodableField("question"))
    else if c.None? then Failure(UndecodableField("correct_answer"))
    else if inc.None? then Failure(UndecodableField("incorrect_answers"))
    else if cat.None? then Failure(UndecodableField("category"))
    else if dif.None? then Failure(UndecodableField("difficulty"))
    else Success(Decoded(q.value, c.value, inc.value, cat.value, dif.value))
  }

  /** The chain of checks at facts.py:233-266, in the order the code raises. */
  function ValidateResponse(data: Json, codec: Codec): Result<Decoded, TriviaError> {
    if !data.JObj? || !IsPyZero(Lookup(data.members, "response_code").GetOr(JNum(1.0))) then
      Failure(InvalidResponse)
    else
      var results := Lookup(data.members, "results").GetOr(JArr([]));
      if !results.JArr? then Failure(InvalidResultsFormat)
      else if results.items == [] then Failure(EmptyResults)
      else if !results.items[0].JObj? then Failure(InvalidQuestionFormat)
      else
        ValidateQuestion(codec, results.items[0].members)
  }

  /** The required-fields loop (facts.py:249-251), then decoding (facts.py:254-266). */
  function ValidateQuestion(codec: Codec, fields: seq<(string, Json)>): Result<Decoded, TriviaError> {
    match FirstMissing(RequiredFields, fields)
    case Some(f) => Failure(MissingField(f))
    case None => DecodeFields(codec, fields)
  }

  /** Values `for a in v` accepts that yield only strings. */
  predicate AnswersAreStrings(v: Json) {
    v.JStr? || v.JObj? || (v.JArr? && forall i :: 0 <= i < |v.items| ==> v.items[i].JStr?)
  }

  /** The member `key` is present and holds a string. */
  predicate IsStringField(members: seq<(string, Json)>, key: string) {
    Lookup(members, key).Some? && Lookup(members, key).value.JStr?
  }

  /**
   * The responses the question is taken from, stated without the order of the checks:
   * a dict whose `response_code` equals 0, whose `results` is a non-empty list whose
   * first element is a dict holding the five required fields, the four text fields as
   * strings and the incorrect answers as an iterable of strings.
   */
  ghost predicate WellFormedResponse(data: Json) {
    && data.JObj?
    && Lookup(data.members, "response_code").Some?
    && IsPyZero(Lookup(data.members, "response_code").value)
    && Lookup(data.members, "results").Some?
    && var results := Lookup(data.members, "results").value;
    && results.JArr? && |results.items| > 0
    && results.items[0].JObj?
    && WellFormedQuestion(results.items[0].members)
  }

  /** The five required fields are present, four of them strings, the answers iterable strings. */
  ghost predicate WellFormedQuestion(fields: seq<(string, Json)>) {
    && IsStringField(fields, "question")
    && IsStringField(fields, "correct_answer")
    && IsStringField(fields, "category")
    && IsStringField(fields, "difficulty")
    && Lookup(fields, "incorrect_answers").Some?
    && AnswersAreStrings(Lookup(fields, "incorrect_answers").value)
  }

  /** The required-fields loop passes exactly when all five keys are present. */
  lemma AllRequiredPresent(fields: seq<(string, Json)>)
    ensures FirstMissing(RequiredFields, fields).None? <==>
      && HasKey(fields, "question") && HasKey(fields, "correct_answer")
      && HasKey(fields, "incorrect_answers") && HasKey(fields, "category")
      && HasKey(fields, "difficulty")
  {
    var r := RequiredFields;
    assert r[0] == "question" && r[1] == "correct_answer" && r[2] == "incorrect_answers";
    assert r[3] == "category" && r[4] == "difficulty" && |r| == 5;
  }

  /** A dict of question fields is accepted exactly when it is well formed. */
  lemma ValidateQuestionAccepts(fields: seq<(string, Json)>, codec: Codec)
    ensures ValidateQuestion(codec, fields).Success? <==> WellFormedQuestion(fields)
  {
    AllRequiredPresent(fields);
    var inc := Lookup(fields, "incorrect_answers");
    if inc.Some? {
      assert DecodeAnswers(codec, inc.value).Some? <==> AnswersAreStrings(inc.value);
    }
  }

  /** The validator accepts exactly the well-formed responses, whatever the codec. */
  lemma ValidateAcceptsWellFormed(data: Json, codec: Codec)
    ensures ValidateResponse(data, codec).Success? <==> WellFormedResponse(data)
  {
    if data.JObj? && Lookup(data.members, "results").Some? {
      var results := Lookup(data.members, "results").value;
      if results.JArr? && |results.items| > 0 && results.items[0].JObj? {
        ValidateQuestionAccepts(results.items[0].members, codec);
      }
    }
  }

  /** The single trivia question as the poll sends it. */
  datatype TriviaPoll = TriviaPoll(text: string, options: seq<string>, correctIdx: nat, id: string)

  /** The fallback question (facts.py:286-291); `stamp` is the text of the current timestamp. */
  function FallbackPoll(stamp: string): TriviaPoll {
    TriviaPoll(
      "Which country is known as the Land of Rising Sun?",
      ["China", "Thailand", "Japan", "India"],
      2,
      "fallback_" + stamp)
  }

  /** The lines appended to the question text in the poll. */
  function PollFooter(d: Decoded, codec: Codec): string {
    "\n\nCategory: " + d.category + "\nDifficulty: " + codec.title(d.difficulty)
  }

  /**
   * The poll built from decoded fields (facts.py:269-281); None when `options.index`
   * raises because the shuffled list lost the correct answer.
   */
  function BuildPoll(d: Decoded, codec: Codec, shuffle: Shuffler, k: nat): Option<TriviaPoll> {
    match Assemble(d.incorrect, d.correct, shuffle, k)
    case None => None
    case Some(choice) =>
      var clean := Normalize(d.question);
      Some(TriviaPoll(
        clean + PollFooter(d, codec),
        choice.options,
        choice.correctIdx,
        QuestionId(codec, clean)))
  }

  /**
   * With a real shuffle the poll is built: its options are a permutation of
   * `incorrect + [correct]`, the index points at the correct answer, the id is that of
   * the normalised question text, and the poll text is that text followed by the footer.
   */
  lemma BuildPollSpec(d: Decoded, codec: Codec, shuffle: Shuffler, k: nat)
    requires IsShuffler(shuffle)
    ensures var p := BuildPoll(d, codec, shuffle, k);
      && p.Some?
      && multiset(p.value.options) == multiset(d.incorrect + [d.correct])
      && p.value.correctIdx < |p.value.options|
      && p.value.options[p.value.correctIdx] == d.correct
      && p.value.id == QuestionId(codec, Normalize(d.question))
      && p.value.text[..|Normalize(d.question)|] == Normalize(d.question)
      && p.value.text[|Normalize(d.question)|..] == PollFooter(d, codec)
  {
    AssembleSpec(d.incorrect, d.correct, shuffle, k);
    var clean := Normalize(d.question);
    var footer := PollFooter(d, codec);
    assert (clean + footer)[..|clean|] == clean;
    assert (clean + footer)[|clean|..] == footer;
  }

  /**
   * `fetch_trivia_question` on a decoded response; the k-th shuffle call orders its
   * options. Any raise yields the fallback question.
   */
  function FetchTriviaQuestion(data: Json, codec: Codec, shuffle: Shuffler, k: nat, stamp: string): (p: TriviaPoll)
  {
    match ValidateResponse(data, codec)
    case Failure(_) => FallbackPoll(stamp)
    case Success(d) => BuildPoll(d, codec, shuffle, k).GetOr(FallbackPoll(stamp))
  }

  /** The fallback's recorded index points at "Japan" and its id is marked `fallback_`. */
  lemma FallbackPollSpec(stamp: string)
    ensures var p := FallbackPoll(stamp);
      p.options[p.correctIdx] == "Japan" && p.id[..9] == "fallback_" && |p.id| == 9 + |stamp|
  {
  }

  /**
   * A response that is not well formed yields the fallback question; a well-formed one
   * yields the poll built from its decoded fields.
   */
  lemma FetchTriviaQuestionSpec(data: Json, codec: Codec, shuffle: Shuffler, k: nat, stamp: string)
    requires IsShuffler(shuffle)
    ensures var p := FetchTriviaQuestion(data, codec, shuffle, k, stamp);
      && (!WellFormedResponse(data) ==> p == FallbackPoll(stamp))
      && (WellFormedResponse(data) ==>
            ValidateResponse(data, codec).Success?
            && Some(p) == BuildPoll(ValidateResponse(data, codec).value, codec, shuffle, k))
  {
    ValidateAcceptsWellFormed(data, codec);
    var r := ValidateResponse(data, codec);
    if r.Success? {
      BuildPollSpec(r.value, codec, shuffle, k);
    }
  }

  /** Questions that normalise to the same text get the same id. */
  lemma SameNormalFormSameId(d1: Decoded, d2: Decoded, codec: Codec, shuffle: Shuffler, k1: nat, k2: nat)
    requires IsShuffler(shuffle)
    requires Normalize(d1.question) == Normalize(d2.question)
    ensures BuildPoll(d1, codec, shuffle, k1).Some? && BuildPoll(d2, codec, shuffle, k2).Some?
    ensures BuildPoll(d1, codec, shuffle, k1).value.id == BuildPoll(d2, codec, shuffle, k2).value.id
  {
    BuildPollSpec(d1, codec, shuffle, k1);
    BuildPollSpec(d2, codec, shuffle, k2);
  }

  /**
   * One dispatch cycle: load the history, pick an item with the retry loop, send it and,
   * only if the send did not raise, append its id and save.
   */
  method Dispatch<T>(log: HistoryLog, fetch: nat -> (T, string), sendOk: bool)
    returns (sent: Option<T>, id: string)
    modifies log
    ensures var h := Loaded(old(log.file));
      var c := Chosen(h, fetch, 0);
      && id == fetch(c).1
      && (sendOk ==> sent == Some(fetch(c).0) && log.file == Stored(Truncate(h + [id], log.capacity)))
      && (!sendOk ==> sent == None && log.file == old(log.file))
  {
    var history := log.Load();
    var item, fetches;
    item, id, fetches := SelectUnique(history, fetch);
    if sendOk {
      log.Save(history + [id]);
      sent := Some(item);
    } else {
      sent := None;
    }
  }

  /** One pass of the `send_scheduled_facts` loop: the instant it sleeps until, then a dispatch. */
  method SendScheduledFacts(log: HistoryLog, now: int, fetch: nat -> (string, string), sendOk: bool)
    returns (wakeAt: int, sent: Option<string>)
    requires log.capacity == MaxStoredFacts
    modifies log
    ensures wakeAt == NextTrigger(now, FactSlots) && now < wakeAt <= now + Day
    ensures var h := Loaded(old(log.file));
      var c := Chosen(h, fetch, 0);
      && (sendOk ==> sent == Some(fetch(c).0) && log.file == Stored(Truncate(h + [fetch(c).1], MaxStoredFacts)))
      && (!sendOk ==> sent == None && log.file == old(log.file))
  {
    SlotTablesValid();
    NextTriggerSpec(now, FactSlots);
    wakeAt := NextTrigger(now, FactSlots);
    var id;
    sent, id := Dispatch(log, fetch, sendOk);
  }

  /** `/facts` from an admin: the same dispatch, outside the schedule. */
  method InstantFactsHandler(log: HistoryLog, fetch: nat -> (string, string), sendOk: bool)
    returns (sent: Option<string>)
    requires log.capacity == MaxStoredFacts
    modifies log
    ensures var h := Loaded(old(log.file));
      var c := Chosen(h, fetch, 0);
      && (sendOk ==> sent == Some(fetch(c).0) && log.file == Stored(Truncate(h + [fetch(c).1], MaxStoredFacts)))
      && (!sendOk ==> sent == None && log.file == old(log.file))
  {
    var id;
    sent, id := Dispatch(log, fetch, sendOk);
  }

  /** The trivia fetcher as an oracle: the k-th call decodes the k-th response. */
  function TriviaFetcher(responses: nat -> Json, codec: Codec, shuffle: Shuffler, stamps: nat -> string): nat -> (TriviaPoll, string) {
    (k: nat) => var p := FetchTriviaQuestion(responses(k), codec, shuffle, k, stamps(k)); (p, p.id)
  }

  /** One pass of the `send_scheduled_trivia` loop of facts.py. */
  method SendScheduledTrivia(log: HistoryLog, now: int, responses: nat -> Json, codec: Codec,
                             shuffle: Shuffler, stamps: nat -> string, sendOk: bool)
    returns (wakeAt: int, sent: Option<TriviaPoll>)
    requires log.capacity == MaxStoredQuestions
    modifies log
    ensures wakeAt == NextTrigger(now, TriviaSlots) && now < wakeAt <= now + Day
    ensures var h := Loaded(old(log.file));
      var fetch := TriviaFetcher(responses, codec, shuffle, stamps);
      var c := Chosen(h, fetch, 0);
      && (sendOk ==> sent == Some(fetch(c).0) && log.file == Stored(Truncate(h + [fetch(c).1], MaxStoredQuestions)))
      && (!sendOk ==> sent == None && log.file == old(log.file))
  {
    SlotTablesValid();
    NextTriggerSpec(now, TriviaSlots);
    wakeAt := NextTrigger(now, TriviaSlots);
    var id;
    sent, id := Dispatch(log, TriviaFetcher(responses, codec, shuffle, stamps), sendOk);
  }

  /** `/trivia` from an admin (facts.py version). */
  method InstantTriviaHandler(log: HistoryLog, responses: nat -> Json, codec: Codec,
                              shuffle: Shuffler, stamps: nat -> string, sendOk: bool)
    returns (sent: Option<TriviaPoll>)
    requires log.capacity == MaxStoredQuestions
    modifies log
    ensures var h := Loaded(old(log.file));
      var fetch := TriviaFetcher(responses, codec, shuffle, stamps);
      var c := Chosen(h, fetch, 0);
      && (sendOk ==> sent == Some(fetch(c).0) && log.file == Stored(Truncate(h + [fetch(c).1], MaxStoredQuestions)))
      && (!sendOk ==> sent == None && log.file == old(log.file))
  {
    var id;
    sent, id := Dispatch(log, TriviaFetcher(responses, codec, shuffle, stamps), sendOk);
  }
}
