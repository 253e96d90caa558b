/**
 * The verification rule of `/api/verify` and the lookup of `/api/sequence`,
 * as functions of the request and the store, with the properties they keep:
 * the order of the checks, ordered-match semantics, and single use.
 */
module Verification {
  import opened Wrappers
  import opened Captcha

  /** How the comparison loop over the stored shapes ends. */
  datatype Comparison =
    | Correct     // every stored shape matched
    | Incorrect   // the loop broke at the first mismatch
    | OutOfRange  // the loop indexed past the submission or past a pair: a runtime panic

  /**
   * The loop over the stored shapes, from index `i` on. Shape `i` is compared
   * with `sub[i][0]` and, only when the rows agree, with `sub[i][1]`, so an
   * index is out of range only when it is actually reached.
   */
  function CompareFrom(shapes: seq<Shape>, sub: seq<seq<int>>, i: nat): (r: Comparison)
    requires i <= |shapes|
    ensures r == OutOfRange ==> exists k :: i <= k < |shapes| && ShortPair(sub, k)
    decreases |shapes| - i
  {
    if i == |shapes| then Correct
    else if i >= |sub| || |sub[i]| == 0 then assert ShortPair(sub, i); OutOfRange
    else if shapes[i].row != sub[i][0] then Incorrect
    else if |sub[i]| == 1 then assert ShortPair(sub, i); OutOfRange
    else if shapes[i].col != sub[i][1] then Incorrect
    else CompareFrom(shapes, sub, i + 1)
  }

  /** The submission has no pair at index `k`, or one without both a row and a column. */
  predicate ShortPair(sub: seq<seq<int>>, k: nat) {
    k >= |sub| || |sub[k]| < 2
  }

  /** The submitted pair `p` names the cell of shape `s`. */
  predicate SameCell(s: Shape, p: seq<int>) {
    |p| >= 2 && p[0] == s.row && p[1] == s.col
  }

  /** Ordered match: the `k`-th submitted pair names the `k`-th stored cell, for every stored shape. */
  predicate MatchesInOrder(shapes: seq<Shape>, sub: seq<seq<int>>) {
    |shapes| <= |sub| && forall k :: 0 <= k < |shapes| ==> SameCell(shapes[k], sub[k])
  }

  /** The comparison loop, with its `correct` flag and its `break`. */
  method CompareInOrder(shapes: seq<Shape>, sub: seq<seq<int>>) returns (result: Comparison)
    ensures result == CompareFrom(shapes, sub, 0)
  {
    var correct := true;
    var i := 0;
    while i < |shapes|
      invariant 0 <= i <= |shapes|
      invariant correct
      invariant CompareFrom(shapes, sub, 0) == CompareFrom(shapes, sub, i)
    {
      var shape := shapes[i];
      if i >= |sub| || |sub[i]| == 0 {
        return OutOfRange;
      }
      if shape.row != sub[i][0] {
        correct := false;
        break;
      }
      if |sub[i]| == 1 {
        return OutOfRange;
      }
      if shape.col != sub[i][1] {
        correct := false;
        break;
      }
      i := i + 1;
    }
    result := if correct then Correct else Incorrect;
  }

  lemma {:induction false} CompareFromCorrectIff(shapes: seq<Shape>, sub: seq<seq<int>>, i: nat)
    requires i <= |shapes|
    ensures CompareFrom(shapes, sub, i) == Correct <==>
      (i == |shapes| || |shapes| <= |sub|) && forall k :: i <= k < |shapes| ==> SameCell(shapes[k], sub[k])
    decreases |shapes| - i
  {
    if i < |shapes| {
      CompareFromCorrectIff(shapes, sub, i + 1);
    }
  }

  /** The loop succeeds exactly on an ordered match. */
  lemma CorrectIffMatchesInOrder(shapes: seq<Shape>, sub: seq<seq<int>>)
    ensures CompareFrom(shapes, sub, 0) == Correct <==> MatchesInOrder(shapes, sub)
  {
    CompareFromCorrectIff(shapes, sub, 0);
  }

  /**
   * A submission with at least as many pairs as there are stored shapes, each
   * pair with a row and a column, never makes the loop index out of range.
   */
  lemma NoPanicOnPairs(shapes: seq<Shape>, sub: seq<seq<int>>)
    requires |shapes| <= |sub|
    requires forall k :: 0 <= k < |sub| ==> |sub[k]| >= 2
    ensures CompareFrom(shapes, sub, 0) != OutOfRange
  {
  }

  /** The pair at index `m` of the submission, or no numbers at all past its end. */
  function PairAt(sub: seq<seq<int>>, m: nat): seq<int> {
    if m < |sub| then sub[m] else []
  }

  /**
   * Reaching stored shape `k` makes the loop index out of range: there is no
   * pair at `k`, the pair is empty, or it holds only a row and that row agrees,
   * so the column is read.
   */
  predicate PanicsAt(shapes: seq<Shape>, sub: seq<seq<int>>, k: nat)
    requires k < |shapes|
  {
    k >= |sub| || |sub[k]| == 0 || (|sub[k]| == 1 && sub[k][0] == shapes[k].row)
  }

  /** From index `i` on, the loop matches every shape up to one where it indexes out of range. */
  predicate ReachesPanic(shapes: seq<Shape>, sub: seq<seq<int>>, i: nat)
    requires i <= |shapes|
  {
    exists k :: i <= k < |shapes| && PanicsAt(shapes, sub, k)
      && forall m :: i <= m < k ==> SameCell(shapes[m], PairAt(sub, m))
  }

  /**
   * The loop panics exactly when it reaches a shape whose pair is missing or
   * too short: a mismatch earlier ends it with `Incorrect` first.
   */
  lemma {:induction false} CompareFromOutOfRangeIff(shapes: seq<Shape>, sub: seq<seq<int>>, i: nat)
    requires i <= |shapes|
    ensures CompareFrom(shapes, sub, i) == OutOfRange <==> ReachesPanic(shapes, sub, i)
    decreases |shapes| - i
  {
    if i < |shapes| {
      if PanicsAt(shapes, sub, i) {
        assert ReachesPanic(shapes, sub, i);
      } else if !SameCell(shapes[i], PairAt(sub, i)) {
        forall k | i <= k < |shapes| && PanicsAt(shapes, sub, k)
          ensures !(forall m :: i <= m < k ==> SameCell(shapes[m], PairAt(sub, m)))
        {
          assert k != i;
        }
      } else {
        CompareFromOutOfRangeIff(shapes, sub, i + 1);
        if ReachesPanic(shapes, sub, i) {
          var k :| i <= k < |shapes| && PanicsAt(shapes, sub, k)
            && forall m :: i <= m < k ==> SameCell(shapes[m], PairAt(sub, m));
          assert k != i;
          assert ReachesPanic(shapes, sub, i + 1);
        }
        if ReachesPanic(shapes, sub, i + 1) {
          var k :| i + 1 <= k < |shapes| && PanicsAt(shapes, sub, k)
            && forall m :: i + 1 <= m < k ==> SameCell(shapes[m], PairAt(sub, m));
          assert ReachesPanic(shapes, sub, i);
        }
      }
    }
  }

  /** The submission a client sends by clicking the stored cells in stored order. */
  function CellsOf(shapes: seq<Shape>): (sub: seq<seq<int>>)
    ensures |sub| == |shapes|
    ensures forall k :: 0 <= k < |sub| ==> sub[k] == [shapes[k].row, shapes[k].col]
  {
    seq(|shapes|, k requires 0 <= k < |shapes| => [shapes[k].row, shapes[k].col])
  }

  /** Clicking the stored cells in stored order passes. */
  lemma StoredOrderPasses(shapes: seq<Shape>)
    ensures CompareFrom(shapes, CellsOf(shapes), 0) == Correct
  {
    CorrectIffMatchesInOrder(shapes, CellsOf(shapes));
  }

  /**
   * Clicking the stored cells of a generated challenge in any other order fails:
   * `order[i]` says which stored cell is clicked `i`-th. Matching is by order,
   * not by set membership.
   */
  lemma OtherOrderFails(c: CaptchaData, order: seq<nat>)
    requires WellFormed(c)
    requires |order| == ShapeCount && forall i :: 0 <= i < |order| ==> order[i] < ShapeCount
    requires order != [0, 1, 2]
    ensures CompareFrom(c.shapes, seq(ShapeCount, i requires 0 <= i < ShapeCount => CellsOf(c.shapes)[order[i]]), 0)
      == Incorrect
  {
    var cells := CellsOf(c.shapes);
    var sub := seq(ShapeCount, i requires 0 <= i < ShapeCount => cells[order[i]]);
    var i :| 0 <= i < ShapeCount && order[i] != i;
    var j := order[i];
    assert CellOf(c.shapes[i]) != CellOf(c.shapes[j]);
    assert !SameCell(c.shapes[i], sub[i]);
    NoPanicOnPairs(c.shapes, sub);
    CorrectIffMatchesInOrder(c.shapes, sub);
  }

  /** What `/api/verify` answers. The JSON bodies carry the texts of `Message`. */
  datatype VerifyResponse =
    | KeyRequired          // no X-Captcha-Key header
    | InvalidInput         // the body is not a JSON array of integer arrays
    | Expired              // GET answered redis.Nil
    | ServerError          // GET answered another error
    | WrongCount           // the submission does not hold three pairs
    | Verdict(valid: bool) // the comparison ran to its end
    | Crashed              // the comparison indexed out of range; the handler panicked

  function Message(r: VerifyResponse): string {
    match r
    case KeyRequired => "Captcha key is required"
    case InvalidInput => "Invalid input format"
    case Expired => "Captcha expired"
    case ServerError => "Server error"
    case WrongCount => "Must select exactly 3 shapes"
    case Verdict(valid) => if valid then "Sequence verified successfully" else "Incorrect sequence"
    case Crashed => ""
  }

  /** A response and the store the handler leaves behind. */
  datatype VerifyOutcome = VerifyOutcome(response: VerifyResponse, store: map<string, CaptchaData>)

  /**
   * The `/api/verify` handler: key required, then the body, then the lookup,
   * then the count, then the ordered comparison, and only after a verdict the
   * deletion of the key. `body` is `None` when the request body does not
   * decode as a list of integer lists.
   */
  function HandleVerify(key: string, body: Option<seq<seq<int>>>, store: map<string, CaptchaData>, reachable: bool)
    : (r: VerifyOutcome)
    ensures r.store == if r.response.Verdict? then store - {key} else store
    ensures r.response.Verdict? ==> key != "" && reachable && key in store && body.Some? && |body.value| == ShapeCount
    ensures r.response.Verdict? ==> (r.response.valid <==> MatchesInOrder(store[key].shapes, body.value))
    ensures key == "" ==>
      r == VerifyOutcome(KeyRequired, store) && Message(r.response) == "Captcha key is required"
    ensures key != "" && body.None? ==>
      r == VerifyOutcome(InvalidInput, store) && Message(r.response) == "Invalid input format"
    ensures key != "" && body.Some? && !reachable ==>
      r == VerifyOutcome(ServerError, store) && Message(r.response) == "Server error"
    ensures key != "" && body.Some? && reachable && key !in store ==>
      r == VerifyOutcome(Expired, store) && Message(r.response) == "Captcha expired"
    ensures key != "" && body.Some? && reachable && key in store && |body.value| != ShapeCount ==>
      r == VerifyOutcome(WrongCount, store) && Message(r.response) == "Must select exactly 3 shapes"
    ensures key != "" && body.Some? && reachable && key in store && |body.value| == ShapeCount
            && |store[key].shapes| <= ShapeCount && (forall k :: 0 <= k < |body.value| ==> |body.value[k]| >= 2) ==>
      r.response == Verdict(MatchesInOrder(store[key].shapes, body.value))
    ensures key != "" && body.Some? && reachable && key in store && |body.value| == ShapeCount ==>
      (r.response.Verdict? || r.response == Crashed)
      && (r.response == Crashed <==> ReachesPanic(store[key].shapes, body.value, 0))
    ensures r.response.Verdict? ==>
      Message(r.response) == if r.response.valid then "Sequence verified successfully" else "Incorrect sequence"
  {
    if key == "" then VerifyOutcome(KeyRequired, store)
    else if body.None? then VerifyOutcome(InvalidInput, store)
    else if !reachable then VerifyOutcome(ServerError, store)
    else if key !in store then VerifyOutcome(Expired, store)
    else if |body.value| != ShapeCount then VerifyOutcome(WrongCount, store)
    else
      var c := CompareFrom(store[key].shapes, body.value, 0);
      CorrectIffMatchesInOrder(store[key].shapes, body.value);
      CompareFromOutOfRangeIff(store[key].shapes, body.value, 0);
      if c.OutOfRange? then VerifyOutcome(Crashed, store)
      else VerifyOutcome(Verdict(c.Correct?), store - {key})
  }

  /**
   * A challenge is used at most once: after a verdict on a key, any further
   * well-formed request with that key finds it gone.
   */
  lemma VerdictConsumesKey(key: string, body: Option<seq<seq<int>>>, later: seq<seq<int>>,
                           store: map<string, CaptchaData>, reachable: bool)
    requires HandleVerify(key, body, store, reachable).response.Verdict?
    ensures HandleVerify(key, Some(later), HandleVerify(key, body, store, reachable).store, reachable).response == Expired
  {
  }

  /**
   * In a store whose every record is a generated challenge, any live key and
   * any three pairs with a row and a column get a verdict, never a panic and
   * never the vacuous pass of an empty record, and that verdict is the
   * ordered match; the key is consumed.
   */
  lemma LiveKeyJudgedByOrder(key: string, store: map<string, CaptchaData>, sub: seq<seq<int>>)
    requires AllWellFormed(store)
    requires key != "" && key in store
    requires |sub| == ShapeCount && forall k :: 0 <= k < |sub| ==> |sub[k]| >= 2
    ensures HandleVerify(key, Some(sub), store, true)
      == VerifyOutcome(Verdict(MatchesInOrder(store[key].shapes, sub)), store - {key})
  {
    assert WellFormed(store[key]);
  }

  /** The client that clicks a generated challenge's cells in order is accepted, and the key is consumed. */
  lemma IssuedChallengeAccepted(key: string, store: map<string, CaptchaData>)
    requires key != "" && key in store && WellFormed(store[key])
    ensures HandleVerify(key, Some(CellsOf(store[key].shapes)), store, true)
      == VerifyOutcome(Verdict(true), store - {key})
  {
    StoredOrderPasses(store[key].shapes);
  }

  /** The same cells clicked in another order are rejected, and the key is consumed all the same. */
  lemma ReorderedChallengeRejected(key: string, store: map<string, CaptchaData>, order: seq<nat>)
    requires key != "" && key in store && WellFormed(store[key])
    requires |order| == ShapeCount && forall i :: 0 <= i < |order| ==> order[i] < ShapeCount
    requires order != [0, 1, 2]
    ensures HandleVerify(key, Some(seq(ShapeCount, i requires 0 <= i < ShapeCount => CellsOf(store[key].shapes)[order[i]])),
                         store, true)
      == VerifyOutcome(Verdict(false), store - {key})
  {
    OtherOrderFails(store[key], order);
  }

  /**
   * The loop ranges over the stored shapes, not over the submission: a record
   * with no shapes (what a failed, unchecked decoding of the stored value
   * leaves) accepts any three pairs whatsoever.
   */
  lemma EmptyRecordAcceptsAnything(key: string, store: map<string, CaptchaData>, sub: seq<seq<int>>)
    requires key != "" && key in store && store[key].shapes == []
    requires |sub| == ShapeCount
    ensures HandleVerify(key, Some(sub), store, true).response == Verdict(true)
  {
  }

  /**
   * A worked example: shapes at (0,2), (3,5), (1,0) with kinds
   * Square, Circle, Triangle. The cells in order pass; the same cells in
   * another order fail; two pairs are the wrong count and keep the record.
   */
  lemma WorkedScenario(key: string, store: map<string, CaptchaData>)
    requires key != ""
    requires key in store
    requires store[key].shapes ==
      [Shape(Square, 0, 2, 1), Shape(Circle, 3, 5, 2), Shape(Triangle, 1, 0, 3)]
    ensures HandleVerify(key, Some([[0, 2], [3, 5], [1, 0]]), store, true).response == Verdict(true)
    ensures HandleVerify(key, Some([[1, 0], [3, 5], [0, 2]]), store, true).response == Verdict(false)
    ensures HandleVerify(key, Some([[0, 2], [3, 5]]), store, true) == VerifyOutcome(WrongCount, store)
  {
    StoredOrderPasses(store[key].shapes);
    assert CellsOf(store[key].shapes) == [[0, 2], [3, 5], [1, 0]];
  }

  /** What `/api/sequence` answers. */
  datatype SequenceResponse =
    | SequenceKeyRequired   // no X-Captcha-Key header
    | NoData                // GET answered redis.Nil
    | LookupFailed          // GET answered another error
    | Sequence(text: string)

  function SequenceMessage(r: SequenceResponse): string {
    match r
    case SequenceKeyRequired => "Captcha key is required"
    case NoData => "No captcha data found"
    case LookupFailed => "Failed to get sequence"
    case Sequence(text) => text
  }

  /** The `/api/sequence` handler: it reads the label of a live challenge and deletes nothing. */
  function HandleSequence(key: string, store: map<string, CaptchaData>, reachable: bool): (r: SequenceResponse)
    ensures r.Sequence? <==> key != "" && reachable && key in store
    ensures r.Sequence? ==> r.text == store[key].sequence
    ensures r == NoData <==> key != "" && reachable && key !in store
    ensures key == "" ==> r == SequenceKeyRequired && SequenceMessage(r) == "Captcha key is required"
    ensures key != "" && !reachable ==> r == LookupFailed && SequenceMessage(r) == "Failed to get sequence"
    ensures r == NoData ==> SequenceMessage(r) == "No captcha data found"
  {
    if key == "" then SequenceKeyRequired
    else if !reachable then LookupFailed
    else if key !in store then NoData
    else Sequence(store[key].sequence)
  }

  /** The hint for a generated challenge names its kinds in the order they must be clicked. */
  lemma SequenceNamesKindsInOrder(key: string, store: map<string, CaptchaData>)
    requires key != "" && key in store && WellFormed(store[key])
    ensures HandleSequence(key, store, true).Sequence?
    ensures ParseLabel(HandleSequence(key, store, true).text) == Some(Kinds(store[key].shapes))
  {
    LabelNamesKinds(store[key].shapes);
  }
}
