/**
 * plugins/quiz.py: the batch trivia broadcaster. Each cycle fetches a batch of questions,
 * posts as quiz polls those whose id is not in the history, and saves the history
 * extended with the ids of the polls that were sent.
 */
module Quiz {
  import opened Wrappers
  import opened Json
  import opened History
  import opened Schedule
  import opened Text
  import opened Options

  const QuestionsPerPost: nat := 4
  const ReplacementBudget: nat := 3
  const MaxQuestionLength: nat := 255
  const MaxOptionLength: nat := 100
  const MaxExplanationLength: nat := 200

  /** One entry of the list `fetch_trivia_questions` returns. */
  datatype Question = Question(
    question: string,
    options: seq<string>,
    correctIdx: nat,
    category: string,
    difficulty: string,
    id: string)

  /** The five fields of one result after `urllib.parse.unquote`. */
  datatype Fields = Fields(
    question: string,
    correct: string,
    incorrect: seq<string>,
    category: string,
    difficulty: string)

  /** `urllib.parse.unquote(v)`, which raises on anything but a string. */
  function Unquoted(codec: Codec, v: Option<Json>): (r: Option<string>)
    ensures r.Some? <==> v.Some? && v.value.JStr?
  {
    if v.Some? && v.value.JStr? then Some(codec.unquote(v.value.s)) else None
  }

  /** `[urllib.parse.unquote(a) for a in items]`. */
  function UnquoteAll(codec: Codec, items: seq<Json>): (r: Option<seq<string>>)
    ensures r.Some? <==> forall i :: 0 <= i < |items| ==> items[i].JStr?
    ensures r.Some? ==> |r.value| == |items|
    ensures r.Some? ==> forall i :: 0 <= i < |items| ==> r.value[i] == codec.unquote(items[i].s)
  {
    if items == [] then Some([])
    else if !items[0].JStr? then None
    else match UnquoteAll(codec, items[1..])
      case None => None
      case Some(rest) => Some([codec.unquote(items[0].s)] + rest)
  }

  /** The dict display at quiz.py:89-95; a missing key or a non-string raises (None). */
  function DecodeFields(codec: Codec, v: Json): Option<Fields> {
    if !v.JObj? then None
    else
      var m := v.members;
      var q := Unquoted(codec, Lookup(m, "question"));
      var c := Unquoted(codec, Lookup(m, "correct_answer"));
      var answers := Lookup(m, "incorrect_answers");
      var items := if answers.Some? then IterItems(answers.value) else None;
      var inc := if items.Some? then UnquoteAll(codec, items.value) else None;
      var cat := Unquoted(codec, Lookup(m, "category"));
      var dif := Unquoted(codec, Lookup(m, "difficulty"));
      if q.Some? && c.Some? && inc.Some? && cat.Some? && dif.Some? then
        Some(Fields(q.value, c.value, inc.value, cat.value, dif.value))
      else None
  }

  /**
   * quiz.py:97-110 for one result: options shuffled by the k-th shuffle call, the index
   * of the correct answer, texts cut to Telegram's limits, and the id of the full question.
   */
  function BuildQuestion(f: Fields, codec: Codec, shuffle: Shuffler, k: nat): Option<Question> {
    match Assemble(f.incorrect, f.correct, shuffle, k)
    case None => None
    case Some(choice) =>
      Some(Question(
        Take(f.question, MaxQuestionLength),
        MapTake(choice.options, MaxOptionLength),
        choice.correctIdx,
        f.category,
        f.difficulty,
        QuestionId(codec, f.question)))
  }

  /** Decode and build the question of result number k. */
  function DecodeQuestion(v: Json, codec: Codec, shuffle: Shuffler, k: nat): Option<Question> {
    match DecodeFields(codec, v)
    case None => None
    case Some(f) => BuildQuestion(f, codec, shuffle, k)
  }

  /** The texts fit Telegram's limits and the index is a position of an option. */
  predicate WithinLimits(q: Question) {
    && |q.question| <= MaxQuestionLength
    && (forall i :: 0 <= i < |q.options| ==> |q.options[i]| <= MaxOptionLength)
    && q.correctIdx < |q.options|
  }

  /**
   * A built question fits the limits; with a real shuffle it is always built, its options
   * are the cut answers in some order, the index points at the cut correct answer, the
   * question is the cut text and the id is that of the whole (uncut) question.
   */
  lemma BuildQuestionSpec(f: Fields, codec: Codec, shuffle: Shuffler, k: nat)
    ensures var q := BuildQuestion(f, codec, shuffle, k);
      q.Some? ==> WithinLimits(q.value)
    ensures var q := BuildQuestion(f, codec, shuffle, k);
      IsShuffler(shuffle) ==>
        && q.Some?
        && multiset(q.value.options) == multiset(MapTake(f.incorrect + [f.correct], MaxOptionLength))
        && q.value.options[q.value.correctIdx] == Take(f.correct, MaxOptionLength)
        && q.value.question == Take(f.question, MaxQuestionLength)
        && q.value.id == QuestionId(codec, f.question)
  {
    if IsShuffler(shuffle) {
      AssembleSpec(f.incorrect, f.correct, shuffle, k);
      var choice := Assemble(f.incorrect, f.correct, shuffle, k).value;
      MapTakePermutation(choice.options, f.incorrect + [f.correct], MaxOptionLength);
    }
  }

  /** The decoder the for-loop of quiz.py:88-110 applies to result number k. */
  function Decoder(codec: Codec, shuffle: Shuffler): (Json, nat) -> Option<Question> {
    (v: Json, k: nat) => DecodeQuestion(v, codec, shuffle, k)
  }

  /**
   * The for-loop of quiz.py:88-110 as a value: every result decoded in order, or None as
   * soon as one raises.
   */
  function DecodeBatch(results: seq<Json>, decode: (Json, nat) -> Option<Question>): (r: Option<seq<Question>>)
    ensures r.Some? ==> |r.value| == |results|
  {
    if results == [] then Some([])
    else
      var n := |results| - 1;
      match DecodeBatch(results[..n], decode)
      case None => None
      case Some(qs) =>
        match decode(results[n], n)
        case None => None
        case Some(q) => Some(qs + [q])
  }

  /** A batch is decoded exactly when every result is, and then holds those questions in order. */
  lemma {:induction false} DecodeBatchSpec(results: seq<Json>, decode: (Json, nat) -> Option<Question>)
    ensures var r := DecodeBatch(results, decode);
      r.Some? <==> forall i :: 0 <= i < |results| ==> decode(results[i], i).Some?
    ensures var r := DecodeBatch(results, decode);
      r.Some? ==> forall i :: 0 <= i < |results| ==> Some(r.value[i]) == decode(results[i], i)
  {
    if results != [] {
      var n := |results| - 1;
      var pre := results[..n];
      DecodeBatchSpec(pre, decode);
      assert forall i :: 0 <= i < n ==> pre[i] == results[i];
    }
  }

  /**
   * The results list when `response_code` equals 0 and `results` is a non-empty list; a
   * missing key, another code, an empty or non-list `results` all end in the fallback.
   */
  function BatchResults(data: Json): Option<seq<Json>> {
    if !data.JObj? then None
    else
      var code := Lookup(data.members, "response_code");
      var results := Lookup(data.members, "results");
      if code.Some? && IsPyZero(code.value) && results.Some? && results.value.JArr? && results.value.items != [] then
        Some(results.value.items)
      else None
  }

  /** The four fallback questions (quiz.py:117-150); `stamp` is the text of `time.time()`. */
  function FallbackBatch(stamp: string): seq<Question> {
    [ Question("Which country is known as the Land of Rising Sun?",
               ["China", "Japan", "India", "Thailand"], 1, "General Knowledge", "Easy", "fallback_1_" + stamp),
      Question("What is the capital of France?",
               ["London", "Berlin", "Paris", "Madrid"], 2, "Geography", "Medium", "fallback_2_" + stamp),
      Question("Who painted the Mona Lisa?",
               ["Van Gogh", "Picasso", "Da Vinci", "Rembrandt"], 2, "Art", "Hard", "fallback_3_" + stamp),
      Question("What is H2O?",
               ["Gold", "Water", "Salt", "Oxygen"], 1, "Science", "Easy", "fallback_4_" + stamp) ]
  }

  /** `fetch_trivia_questions()` on a decoded response. */
  function TriviaBatch(data: Json, codec: Codec, shuffle: Shuffler, stamp: string): seq<Question> {
    match BatchResults(data)
    case None => FallbackBatch(stamp)
    case Some(results) => DecodeBatch(results, Decoder(codec, shuffle)).GetOr(FallbackBatch(stamp))
  }

  /**
   * The fallback questions fit the limits, record the right answers, and their ids are
   * pairwise distinct and marked `fallback_`.
   */
  lemma FallbackBatchSpec(stamp: string)
    ensures var b := FallbackBatch(stamp);
      && |b| == QuestionsPerPost
      && (forall i :: 0 <= i < |b| ==> WithinLimits(b[i]) && b[i].id[..9] == "fallback_")
      && (forall i, j :: 0 <= i < j < |b| ==> b[i].id != b[j].id)
      && b[0].options[b[0].correctIdx] == "Japan"
      && b[1].options[b[1].correctIdx] == "Paris"
      && b[2].options[b[2].correctIdx] == "Da Vinci"
      && b[3].options[b[3].correctIdx] == "Water"
  {
    var b := FallbackBatch(stamp);
    forall i, j | 0 <= i < j < |b| ensures b[i].id != b[j].id {
      assert b[i].id[9] != b[j].id[9];
    }
  }

  /** A response without a results list, or with any result that does not decode, gives the fallback batch. */
  lemma TriviaBatchSpec(data: Json, codec: Codec, shuffle: Shuffler, stamp: string)
    ensures var b := TriviaBatch(data, codec, shuffle, stamp);
      BatchResults(data).None? ==> b == FallbackBatch(stamp)
    ensures var b := TriviaBatch(data, codec, shuffle, stamp);
      BatchResults(data).Some? ==>
        var results := BatchResults(data).value;
        (exists i :: 0 <= i < |results| && DecodeQuestion(results[i], codec, shuffle, i).None?) ==>
        b == FallbackBatch(stamp)
  {
    if BatchResults(data).Some? {
      DecodeBatchSpec(BatchResults(data).value, Decoder(codec, shuffle));
    }
  }

  /** A response whose every result decodes yields exactly the decoded questions, in order. */
  lemma TriviaBatchDecoded(data: Json, codec: Codec, shuffle: Shuffler, stamp: string)
    ensures var b := TriviaBatch(data, codec, shuffle, stamp);
      BatchResults(data).Some? ==>
        var results := BatchResults(data).value;
        (forall i :: 0 <= i < |results| ==> DecodeQuestion(results[i], codec, shuffle, i).Some?) ==>
        |b| == |results| && forall i :: 0 <= i < |results| ==> Some(b[i]) == DecodeQuestion(results[i], codec, shuffle, i)
  {
    if BatchResults(data).Some? {
      DecodeBatchSpec(BatchResults(data).value, Decoder(codec, shuffle));
    }
  }

  /** Whatever the response, the batch is never empty and every question fits Telegram's limits. */
  lemma TriviaBatchWithinLimits(data: Json, codec: Codec, shuffle: Shuffler, stamp: string)
    ensures var b := TriviaBatch(data, codec, shuffle, stamp);
      && |b| >= 1
      && (forall i :: 0 <= i < |b| ==> WithinLimits(b[i]))
  {
    FallbackBatchSpec(stamp);
    if BatchResults(data).Some? {
      var results := BatchResults(data).value;
      var decoded := DecodeBatch(results, Decoder(codec, shuffle));
      if decoded.Some? {
        DecodeBatchSpec(results, Decoder(codec, shuffle));
        DecodedWithinLimits(results, codec, shuffle);
        assert TriviaBatch(data, codec, shuffle, stamp) == decoded.value;
      }
    }
  }

  /** Every question of a decoded batch fits the limits. */
  lemma DecodedWithinLimits(results: seq<Json>, codec: Codec, shuffle: Shuffler)
    ensures var r := DecodeBatch(results, Decoder(codec, shuffle));
      r.Some? ==> forall i :: 0 <= i < |r.value| ==> WithinLimits(r.value[i])
  {
    var decode := Decoder(codec, shuffle);
    DecodeBatchSpec(results, decode);
    var r := DecodeBatch(results, decode);
    if r.Some? {
      forall i | 0 <= i < |results| ensures WithinLimits(r.value[i]) {
        var f := DecodeFields(codec, results[i]).value;
        BuildQuestionSpec(f, codec, shuffle, i);
      }
    }
  }

  /** The for-loop of quiz.py:88-110: append each decoded result, stop at the first that raises. */
  method DecodeResults(items: seq<Json>, decode: (Json, nat) -> Option<Question>)
    returns (questions: Option<seq<Question>>)
    ensures questions == DecodeBatch(items, decode)
  {
    var acc := [];
    for i := 0 to |items|
      invariant DecodeBatch(items[..i], decode) == Some(acc)
    {
      var q := decode(items[i], i);
      if q.None? {
        DecodeBatchSpec(items, decode);
        return None;
      }
      assert items[..i + 1][..i] == items[..i];
      acc := acc + [q.value];
    }
    assert items[..|items|] == items;
    return Some(acc);
  }

  /** `fetch_trivia_questions`: the decoded batch, or the fallback batch when anything fails. */
  method FetchTriviaQuestions(data: Json, codec: Codec, shuffle: Shuffler, stamp: string)
    returns (questions: seq<Question>)
    ensures questions == TriviaBatch(data, codec, shuffle, stamp)
  {
    var results := BatchResults(data);
    if results.None? {
      return FallbackBatch(stamp);
    }
    var decoded := DecodeResults(results.value, Decoder(codec, shuffle));
    if decoded.None? {
      return FallbackBatch(stamp);
    }
    return decoded.value;
  }

  /** The poll `send_quiz_poll` asks Telegram for. */
  datatype PollRequest = PollRequest(
    question: string,
    options: seq<string>,
    correctOptionId: nat,
    explanation: string,
    isAnonymous: bool)

  /** quiz.py:155-165: the explanation names the category and difficulty, cut to 200 characters. */
  function QuizPollRequest(codec: Codec, q: Question): (r: PollRequest)
    ensures |r.explanation| <= MaxExplanationLength
  {
    PollRequest(
      q.question,
      q.options,
      q.correctIdx,
      Take("Category: " + q.category + "\nDifficulty: " + codec.title(q.difficulty), MaxExplanationLength),
      true)
  }

  /** Every poll requested for a fetched question stays within Telegram's three limits. */
  lemma PollRequestWithinLimits(data: Json, codec: Codec, shuffle: Shuffler, stamp: string, i: nat)
    requires i < |TriviaBatch(data, codec, shuffle, stamp)|
    ensures var r := QuizPollRequest(codec, TriviaBatch(data, codec, shuffle, stamp)[i]);
      && |r.question| <= MaxQuestionLength
      && (forall j :: 0 <= j < |r.options| ==> |r.options[j]| <= MaxOptionLength)
      && |r.explanation| <= MaxExplanationLength
      && r.correctOptionId < |r.options|
  {
    TriviaBatchWithinLimits(data, codec, shuffle, stamp);
  }

  /** The outcome of `fetch_trivia_questions(1)` inside the retry loop: it raised, or gave a first question. */
  datatype Refetch = Raised | Fetched(replacement: Question)

  /**
   * As written, quiz.py:182 passes an argument to a function that takes none, so every
   * replacement fetch raises TypeError.
   */
  function RefetchAsWritten(k: nat): Refetch {
    Raised
  }

  /** A real replacement fetch is never empty, so `if new_questions:` always holds for it. */
  lemma ReplacementAvailable(data: Json, codec: Codec, shuffle: Shuffler, stamp: string)
    ensures |TriviaBatch(data, codec, shuffle, stamp)| >= 1
  {
    TriviaBatchWithinLimits(data, codec, shuffle, stamp);
  }

  /**
   * The replacement fetch as evidently intended: the k-th call fetches a batch from the
   * k-th response (shuffled by the k-th shuffle, stamped with the k-th stamp) and offers
   * its first question.
   */
  function RefetchCorrected(responses: nat -> Json, codec: Codec, shuffles: nat -> Shuffler, stamps: nat -> string): nat -> Refetch {
    (k: nat) =>
      ReplacementAvailable(responses(k), codec, shuffles(k), stamps(k));
      Fetched(TriviaBatch(responses(k), codec, shuffles(k), stamps(k))[0])
  }

  /** The final candidate for one question and the number of replacement fetches used so far. */
  datatype Resolution = Resolution(question: Question, calls: nat)

  /**
   * The retry loop of quiz.py:179-189 from retry count `retry`, where `calls` replacement
   * fetches were already made in this batch.
   */
  function Resolve(q: Question, sent: seq<string>, refetch: nat -> Refetch, calls: nat, retry: nat): (r: Resolution)
    requires retry <= ReplacementBudget
    ensures calls <= r.calls <= calls + (ReplacementBudget - retry)
    decreases ReplacementBudget - retry
  {
    if q.id in sent && retry < ReplacementBudget then
      match refetch(calls)
      case Raised => Resolution(q, calls + 1)
      case Fetched(next) => Resolve(next, sent, refetch, calls + 1, retry + 1)
    else Resolution(q, calls)
  }

  /**
   * A fresh question is kept without fetching; a duplicate whose replacement fetch raises
   * is kept after that one call, the loop having broken out.
   */
  lemma ResolveStopsEarly(q: Question, sent: seq<string>, refetch: nat -> Refetch, calls: nat)
    ensures q.id !in sent ==> Resolve(q, sent, refetch, calls, 0) == Resolution(q, calls)
    ensures q.id in sent && refetch(calls) == Raised ==> Resolve(q, sent, refetch, calls, 0) == Resolution(q, calls + 1)
  {
  }

  /**
   * With a replacement fetch that never raises, a candidate is still a duplicate at the
   * end only after all remaining replacement fetches were made.
   */
  lemma {:induction false} ResolveExhausts(q: Question, sent: seq<string>, refetch: nat -> Refetch, calls: nat, retry: nat)
    requires retry <= ReplacementBudget
    requires forall k :: refetch(k).Fetched?
    ensures var r := Resolve(q, sent, refetch, calls, retry);
      r.question.id in sent ==> r.calls == calls + (ReplacementBudget - retry)
    decreases ReplacementBudget - retry
  {
    if q.id in sent && retry < ReplacementBudget {
      ResolveExhausts(refetch(calls).replacement, sent, refetch, calls + 1, retry + 1);
    }
  }

  /** The corrected fetch never raises, so a duplicate is given up on only after three replacements. */
  lemma CorrectedResolveExhausts(q: Question, sent: seq<string>, responses: nat -> Json, codec: Codec,
                                 shuffles: nat -> Shuffler, stamps: nat -> string, calls: nat)
    ensures var r := Resolve(q, sent, RefetchCorrected(responses, codec, shuffles, stamps), calls, 0);
      r.question.id in sent ==> r.calls == calls + ReplacementBudget
  {
    ResolveExhausts(q, sent, RefetchCorrected(responses, codec, shuffles, stamps), calls, 0);
  }

  /** The state of process_questions after a prefix of the batch. */
  datatype Batch = Batch(
    newIds: seq<string>,
    polls: seq<Question>,
    finals: seq<Question>,
    refetches: nat,
    sends: nat)

  /** process_questions' loop body for one question. */
  function Step(b: Batch, q: Question, sent: seq<string>, refetch: nat -> Refetch, sendOk: nat -> bool): Batch {
    var res := Resolve(q, sent, refetch, b.refetches, 0);
    var f := res.question;
    if f.id !in sent then
      if sendOk(b.sends) then Batch(b.newIds + [f.id], b.polls + [f], b.finals + [f], res.calls, b.sends + 1)
      else Batch(b.newIds, b.polls, b.finals + [f], res.calls, b.sends + 1)
    else Batch(b.newIds, b.polls, b.finals + [f], res.calls, b.sends)
  }

  /** process_questions over the questions in order; `sendOk(k)`: the k-th poll send returned a message. */
  function Run(qs: seq<Question>, sent: seq<string>, refetch: nat -> Refetch, sendOk: nat -> bool): Batch {
    if qs == [] then Batch([], [], [], 0, 0)
    else Step(Run(qs[..|qs| - 1], sent, refetch, sendOk), qs[|qs| - 1], sent, refetch, sendOk)
  }

  /** The number of successful sends among the first n. */
  function CountOk(sendOk: nat -> bool, n: nat): nat {
    if n == 0 then 0 else CountOk(sendOk, n - 1) + (if sendOk(n - 1) then 1 else 0)
  }

  /** `[q.id for q in qs if q.id not in sent]`. */
  function FreshIds(qs: seq<Question>, sent: seq<string>): seq<string> {
    if qs == [] then []
    else FreshIds(qs[..|qs| - 1], sent) + (if qs[|qs| - 1].id !in sent then [qs[|qs| - 1].id] else [])
  }

  /**
   * No recorded id is in the history passed in; one id per sent poll, in order; one final
   * candidate per question; at most one send per question and three replacement fetches
   * per question; as many ids as successful sends.
   */
  lemma {:induction false} RunSpec(qs: seq<Question>, sent: seq<string>, refetch: nat -> Refetch, sendOk: nat -> bool)
    ensures var b := Run(qs, sent, refetch, sendOk);
      && (forall j :: 0 <= j < |b.newIds| ==> b.newIds[j] !in sent)
      && |b.newIds| == |b.polls| <= b.sends <= |qs|
      && (forall j :: 0 <= j < |b.polls| ==> b.newIds[j] == b.polls[j].id)
      && |b.finals| == |qs|
      && b.refetches <= ReplacementBudget * |qs|
      && |b.newIds| == CountOk(sendOk, b.sends)
  {
    if qs != [] {
      RunSpec(qs[..|qs| - 1], sent, refetch, sendOk);
    }
  }

  /** When every send succeeds, the recorded ids are the fresh final candidates, in input order. */
  lemma {:induction false} RunAllSent(qs: seq<Question>, sent: seq<string>, refetch: nat -> Refetch, sendOk: nat -> bool)
    requires forall k :: sendOk(k)
    ensures var b := Run(qs, sent, refetch, sendOk);
      b.newIds == FreshIds(b.finals, sent)
  {
    if qs != [] {
      var b0 := Run(qs[..|qs| - 1], sent, refetch, sendOk);
      RunAllSent(qs[..|qs| - 1], sent, refetch, sendOk);
      var b := Run(qs, sent, refetch, sendOk);
      assert b.finals[..|b.finals| - 1] == b0.finals;
    }
  }

  /** When every send fails nothing is recorded. */
  lemma {:induction false} RunNoneSent(qs: seq<Question>, sent: seq<string>, refetch: nat -> Refetch, sendOk: nat -> bool)
    requires forall k :: !sendOk(k)
    ensures Run(qs, sent, refetch, sendOk).newIds == []
  {
    if qs != [] {
      RunNoneSent(qs[..|qs| - 1], sent, refetch, sendOk);
    }
  }

  /** As written, every question is its own final candidate: duplicates are dropped, never replaced. */
  lemma {:induction false} RunAsWrittenKeepsQuestions(qs: seq<Question>, sent: seq<string>, sendOk: nat -> bool)
    ensures Run(qs, sent, RefetchAsWritten, sendOk).finals == qs
  {
    if qs != [] {
      var b0 := Run(qs[..|qs| - 1], sent, RefetchAsWritten, sendOk);
      RunAsWrittenKeepsQuestions(qs[..|qs| - 1], sent, sendOk);
      ResolveStopsEarly(qs[|qs| - 1], sent, RefetchAsWritten, b0.refetches);
      assert Resolve(qs[|qs| - 1], sent, RefetchAsWritten, b0.refetches, 0).question == qs[|qs| - 1];
      assert Run(qs, sent, RefetchAsWritten, sendOk).finals == b0.finals + [qs[|qs| - 1]];
      assert qs == qs[..|qs| - 1] + [qs[|qs| - 1]];
    }
  }

  /**
   * The history is not updated inside the loop: a fresh id that occurs twice in one batch is
   * recorded twice.
   */
  lemma RepeatedFreshIdRecordedTwice(q: Question, sent: seq<string>, sendOk: nat -> bool)
    requires q.id !in sent && sendOk(0) && sendOk(1)
    ensures Run([q, q], sent, RefetchAsWritten, sendOk).newIds == [q.id, q.id]
  {
    assert [q, q][..1] == [q];
    assert [q][..0] == [];
    assert Run([], sent, RefetchAsWritten, sendOk) == Batch([], [], [], 0, 0);
    assert Resolve(q, sent, RefetchAsWritten, 0, 0) == Resolution(q, 0);
    var b1 := Run([q], sent, RefetchAsWritten, sendOk);
    assert b1 == Step(Batch([], [], [], 0, 0), q, sent, RefetchAsWritten, sendOk);
    assert b1.newIds == [q.id] && b1.sends == 1;
  }

  /** As written: a duplicate is dropped even when a fresh replacement would have been available. */
  lemma AsWrittenDropsDuplicate(q: Question, sent: seq<string>, sendOk: nat -> bool)
    requires q.id in sent
    ensures Run([q], sent, RefetchAsWritten, sendOk).newIds == []
  {
    assert [q][..0] == [];
  }

  /**
   * With the corrected replacement fetch, a duplicate is replaced by the first question
   * of the replacement batch when that one is fresh, and that question is posted.
   */
  lemma CorrectedReplacesDuplicate(q: Question, sent: seq<string>, responses: nat -> Json, codec: Codec,
                                   shuffles: nat -> Shuffler, stamps: nat -> string, sendOk: nat -> bool)
    requires q.id in sent && sendOk(0)
    requires var b := TriviaBatch(responses(0), codec, shuffles(0), stamps(0)); b != [] && b[0].id !in sent
    ensures var alt := TriviaBatch(responses(0), codec, shuffles(0), stamps(0))[0];
      var run := Run([q], sent, RefetchCorrected(responses, codec, shuffles, stamps), sendOk);
      run.newIds == [alt.id] && run.polls == [alt]
  {
    assert [q][..0] == [];
    var refetch := RefetchCorrected(responses, codec, shuffles, stamps);
    var alt := TriviaBatch(responses(0), codec, shuffles(0), stamps(0))[0];
    assert refetch(0) == Fetched(alt);
    assert Resolve(q, sent, refetch, 0, 0) == Resolution(alt, 1);
  }

  /** `process_questions`: send each question whose final candidate is fresh, record the ids sent. */
  method ProcessQuestions(questions: seq<Question>, sent: seq<string>, refetch: nat -> Refetch, sendOk: nat -> bool)
    returns (newIds: seq<string>, polls: seq<Question>)
    ensures var b := Run(questions, sent, refetch, sendOk);
      newIds == b.newIds && polls == b.polls
    ensures forall j :: 0 <= j < |newIds| ==> newIds[j] !in sent
    ensures |newIds| == |polls| <= |questions|
  {
    newIds, polls := [], [];
    ghost var finals: seq<Question> := [];
    var calls, sends := 0, 0;
    for i := 0 to |questions|
      invariant Run(questions[..i], sent, refetch, sendOk) == Batch(newIds, polls, finals, calls, sends)
    {
      assert questions[..i + 1][..i] == questions[..i];
      ghost var calls0 := calls;
      var questionData := questions[i];
      var qid := questionData.id;
      var retry := 0;
      while qid in sent && retry < ReplacementBudget
        invariant retry <= ReplacementBudget && qid == questionData.id
        invariant Resolve(questionData, sent, refetch, calls, retry) == Resolve(questions[i], sent, refetch, calls0, 0)
        decreases ReplacementBudget - retry
      {
        var outcome := refetch(calls);
        calls := calls + 1;
        match outcome
        case Raised =>
          assert Resolve(questions[i], sent, refetch, calls0, 0) == Resolution(questionData, calls);
          break;
        case Fetched(next) =>
          questionData := next;
          qid := next.id;
          retry := retry + 1;
      }
      assert Resolve(questions[i], sent, refetch, calls0, 0) == Resolution(questionData, calls);
      if qid !in sent {
        if sendOk(sends) {
          newIds := newIds + [qid];
          polls := polls + [questionData];
        }
        sends := sends + 1;
      }
      finals := finals + [questionData];
    }
    assert questions[..|questions|] == questions;
    RunSpec(questions, sent, refetch, sendOk);
  }

  /**
   * The history update shared by both callers: run `process_questions` on the loaded
   * history and, only if some poll was sent, save the history extended with the new ids.
   */
  method PostBatch(log: HistoryLog, questions: seq<Question>, refetch: nat -> Refetch, sendOk: nat -> bool)
    returns (newIds: seq<string>)
    modifies log
    ensures var h := Loaded(old(log.file));
      var b := Run(questions, h, refetch, sendOk);
      && newIds == b.newIds
      && log.file == if newIds != [] then Stored(Truncate(h + newIds, log.capacity)) else old(log.file)
  {
    var sentIds := log.Load();
    var polls;
    newIds, polls := ProcessQuestions(questions, sentIds, refetch, sendOk);
    if newIds != [] {
      log.Save(sentIds + newIds);
    }
  }

  /** One pass of the `send_scheduled_trivia` loop of quiz.py. */
  method SendScheduledTrivia(log: HistoryLog, now: int, data: Json, codec: Codec, shuffle: Shuffler, stamp: string,
                             sendOk: nat -> bool)
    returns (wakeAt: int, newIds: seq<string>)
    requires log.capacity == MaxStoredQuestions
    modifies log
    ensures wakeAt == NextTrigger(now, TriviaSlots) && now < wakeAt <= now + Day
    ensures var h := Loaded(old(log.file));
      var b := Run(TriviaBatch(data, codec, shuffle, stamp), h, RefetchAsWritten, sendOk);
      && b.finals == TriviaBatch(data, codec, shuffle, stamp)
      && newIds == b.newIds
      && log.file == if newIds != [] then Stored(Truncate(h + newIds, MaxStoredQuestions)) else old(log.file)
  {
    SlotTablesValid();
    NextTriggerSpec(now, TriviaSlots);
    wakeAt := NextTrigger(now, TriviaSlots);
    var questions := FetchTriviaQuestions(data, codec, shuffle, stamp);
    RunAsWrittenKeepsQuestions(questions, Loaded(log.file), sendOk);
    newIds := PostBatch(log, questions, RefetchAsWritten, sendOk);
  }

  /** `manual_trivia`: the same cycle on an admin's command. */
  method ManualTrivia(log: HistoryLog, data: Json, codec: Codec, shuffle: Shuffler, stamp: string,
                      sendOk: nat -> bool)
    returns (newIds: seq<string>)
    requires log.capacity == MaxStoredQuestions
    modifies log
    ensures var h := Loaded(old(log.file));
      var b := Run(TriviaBatch(data, codec, shuffle, stamp), h, RefetchAsWritten, sendOk);
      && b.finals == TriviaBatch(data, codec, shuffle, stamp)
      && newIds == b.newIds
      && log.file == if newIds != [] then Stored(Truncate(h + newIds, MaxStoredQuestions)) else old(log.file)
  {
    var questions := FetchTriviaQuestions(data, codec, shuffle, stamp);
    RunAsWrittenKeepsQuestions(questions, Loaded(log.file), sendOk);
    newIds := PostBatch(log, questions, RefetchAsWritten, sendOk);
  }
}
