/**
 * Answer-option assembly shared by both trivia fetchers:
 * `options = incorrect + [correct]; random.shuffle(options); idx = options.index(correct)`.
 * The shuffle is a parameter; the property that it only reorders is `IsShuffler`.
 */
module Options {
  import opened Wrappers
  import opened Text

  /** The reordering produced by the k-th call of `random.shuffle` in one run. */
  type Shuffler = (nat, seq<string>) -> seq<string>

  /** Every call only permutes its list, as `random.shuffle` does. */
  ghost predicate IsShuffler(shuffle: Shuffler) {
    forall k: nat, xs: seq<string> :: multiset(shuffle(k, xs)) == multiset(xs)
  }

  /** `s.index(x)`: the position of the first occurrence of `x`. */
  function IndexOf(s: seq<string>, x: string): (i: nat)
    requires x in s
    ensures i < |s| && s[i] == x
    ensures forall j :: 0 <= j < i ==> s[j] != x
  {
    if s[0] == x then 0 else 1 + IndexOf(s[1..], x)
  }

  /** The options in their posted order and the position of the correct answer. */
  datatype Choice = Choice(options: seq<string>, correctIdx: nat)

  /**
   * Locate `correct` in the shuffled list; `options.index` raises ValueError (here: None)
   * when the list does not contain it.
   */
  function Locate(shuffled: seq<string>, correct: string): (c: Option<Choice>)
    ensures c.Some? <==> correct in shuffled
    ensures c.Some? ==> c.value.options == shuffled
    ensures c.Some? ==> c.value.correctIdx < |shuffled| && shuffled[c.value.correctIdx] == correct
  {
    if correct in shuffled then Some(Choice(shuffled, IndexOf(shuffled, correct))) else None
  }

  /** Shuffle the answers of one question with the k-th shuffle call and locate the correct one. */
  function Assemble(incorrect: seq<string>, correct: string, shuffle: Shuffler, k: nat): Option<Choice> {
    Locate(shuffle(k, incorrect + [correct]), correct)
  }

  /**
   * With a real shuffle the assembly never fails: the options are a permutation of
   * `incorrect + [correct]` and the recorded index points at the correct answer.
   */
  lemma AssembleSpec(incorrect: seq<string>, correct: string, shuffle: Shuffler, k: nat)
    requires IsShuffler(shuffle)
    ensures var c := Assemble(incorrect, correct, shuffle, k);
      && c.Some?
      && multiset(c.value.options) == multiset(incorrect + [correct])
      && |c.value.options| == |incorrect| + 1
      && c.value.correctIdx < |c.value.options|
      && c.value.options[c.value.correctIdx] == correct
  {
    var xs := incorrect + [correct];
    var s := shuffle(k, xs);
    assert multiset(s) == multiset(xs);
    assert xs[|xs| - 1] == correct;
    assert correct in multiset(xs);
    assert |s| == |multiset(s)| == |multiset(xs)| == |xs|;
  }

  /** The options as Telegram shows them: each cut to at most `n` characters. */
  function MapTake(options: seq<string>, n: nat): (r: seq<string>)
    ensures |r| == |options|
    ensures forall i :: 0 <= i < |options| ==> r[i] == Take(options[i], n) && |r[i]| <= n
  {
    if options == [] then [] else [Take(options[0], n)] + MapTake(options[1..], n)
  }

  /** Taking out one element removes exactly one copy of it. */
  lemma RemoveAt(s: seq<string>, j: nat)
    requires j < |s|
    ensures multiset(s) == multiset(s[..j] + s[j + 1..]) + multiset{s[j]}
  {
    assert s == s[..j] + [s[j]] + s[j + 1..];
  }

  lemma MapTakeRemoveAt(s: seq<string>, j: nat, n: nat)
    requires j < |s|
    ensures MapTake(s[..j] + s[j + 1..], n) == MapTake(s, n)[..j] + MapTake(s, n)[j + 1..]
  {
  }

  /** Removing one copy of the same element from two permutations leaves permutations. */
  lemma RemoveFromBoth(a: seq<string>, b: seq<string>, j: nat)
    requires multiset(a) == multiset(b) && a != [] && j < |b| && b[j] == a[0]
    ensures multiset(a[1..]) == multiset(b[..j] + b[j + 1..])
  {
    RemoveAt(a, 0);
    RemoveAt(b, j);
    assert a[..0] + a[1..] == a[1..];
    var x := multiset{a[0]};
    calc {
      multiset(a[1..]);
      multiset(a) - x;
      multiset(b) - x;
      multiset(b[..j] + b[j + 1..]);
    }
  }

  /** The cut list keeps the cut of the element taken out at `j`, beside the cut of the rest. */
  lemma MapTakeSplit(b: seq<string>, j: nat, n: nat)
    requires j < |b|
    ensures multiset(MapTake(b, n)) == multiset(MapTake(b[..j] + b[j + 1..], n)) + multiset{Take(b[j], n)}
  {
    RemoveAt(MapTake(b, n), j);
    MapTakeRemoveAt(b, j, n);
  }

  /** Cutting every element of two permutations of one list gives permutations of each other. */
  lemma {:induction false} MapTakePermutation(a: seq<string>, b: seq<string>, n: nat)
    requires multiset(a) == multiset(b)
    ensures multiset(MapTake(a, n)) == multiset(MapTake(b, n))
    decreases |a|
  {
    if a != [] {
      assert a[0] in multiset(b);
      var j :| 0 <= j < |b| && b[j] == a[0];
      var b' := b[..j] + b[j + 1..];
      RemoveFromBoth(a, b, j);
      MapTakePermutation(a[1..], b', n);
      MapTakeSplit(b, j, n);
      assert MapTake(a, n) == [Take(a[0], n)] + MapTake(a[1..], n);
    }
  }
}
