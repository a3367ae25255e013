/** Step IDs: the counter that tells repeated uses of an ID apart, and when that works. */
module StepIds {
  import opened Values

  /** SHA-1 is modelled as injective, so a hashed ID is represented by the text that is hashed. */
  type HashedId = string

  type Counts = map<string, nat>

  function Count(c: Counts, id: string): nat {
    if id in c then c[id] else 0
  }

  function Bump(c: Counts, id: string): Counts {
    c[id := Count(c, id) + 1]
  }

  function Digit(d: nat): char
    requires d < 10
  {
    "0123456789"[d]
  }

  /** Decimal printing of a natural number. */
  function Decimal(n: nat): string {
    if n < 10 then [Digit(n)] else Decimal(n / 10) + [Digit(n % 10)]
  }

  /** The text hashed for a use of `id` that was preceded by `earlier` uses of the same ID. */
  function PreHash(id: string, earlier: nat): HashedId {
    if earlier == 0 then id else id + ":" + Decimal(earlier)
  }

  datatype ParsedStepID = ParsedStepID(hashed: HashedId, userFacing: string, index: Option<nat>)

  function Parse(id: string, earlier: nat): ParsedStepID {
    ParsedStepID(PreHash(id, earlier), id, if earlier > 0 then Some(earlier) else None)
  }

  // ----- Reference view: the texts of a whole sequence of uses -----

  /** Number of uses of `id` in `uses`. */
  function Occurrences(uses: seq<string>, id: string): nat {
    if uses == [] then 0
    else Occurrences(uses[..|uses| - 1], id) + (if uses[|uses| - 1] == id then 1 else 0)
  }

  /** The text hashed for the `i`th use. */
  function TextAt(uses: seq<string>, i: nat): HashedId
    requires i < |uses|
  {
    PreHash(uses[i], Occurrences(uses[..i], uses[i]))
  }

  ghost predicate TextsDistinct(uses: seq<string>) {
    forall i, j :: 0 <= i < j < |uses| ==> TextAt(uses, i) != TextAt(uses, j)
  }

  /** A used ID is another used ID followed by `:n`, for an occurrence index `n` that other ID reaches. */
  ghost predicate Clash(uses: seq<string>, a: string, b: string, n: nat) {
    && a in uses && b in uses
    && 1 <= n < Occurrences(uses, b)
    && a == b + ":" + Decimal(n)
  }

  // ----- Decimal printing is injective -----

  lemma DigitInjective(a: nat, b: nat)
    requires a < 10 && b < 10 && Digit(a) == Digit(b)
    ensures a == b
  {
    var digits := "0123456789";
    assert forall i, j :: 0 <= i < j < 10 ==> digits[i] != digits[j];
  }

  lemma {:induction false} DecimalInjective(a: nat, b: nat)
    requires Decimal(a) == Decimal(b)
    ensures a == b
  {
    var x, y := Decimal(a), Decimal(b);
    DecimalNonEmpty(a / 10);
    DecimalNonEmpty(b / 10);
    assert x[|x| - 1] == Digit(a % 10);
    assert y[|y| - 1] == Digit(b % 10);
    DigitInjective(a % 10, b % 10);
    if a >= 10 && b >= 10 {
      assert Decimal(a / 10) == x[..|x| - 1] == y[..|y| - 1] == Decimal(b / 10);
      DecimalInjective(a / 10, b / 10);
    }
  }

  lemma DecimalNonEmpty(n: nat)
    ensures |Decimal(n)| > 0
  {
  }

  lemma {:induction false} DecimalHasNoColon(n: nat)
    ensures ':' !in Decimal(n)
  {
    if n >= 10 {
      DecimalHasNoColon(n / 10);
    }
  }

  /** Reading from the right, the last colon splits a text in only one way. */
  lemma {:induction false} SplitAtLastColon(x: string, d: string, y: string, e: string)
    requires x + ":" + d == y + ":" + e
    requires ':' !in d && ':' !in e
    ensures x == y && d == e
  {
    var s := x + ":" + d;
    var t := y + ":" + e;
    assert s[|x|] == ':' && t[|y|] == ':';
    assert |x| == |y|;
    assert x == s[..|x|] && y == t[..|y|];
    assert d == s[|x| + 1..] && e == t[|y| + 1..];
  }

  /** Texts of two uses coincide only when an ID is itself written like a numbered repeat. */
  lemma {:induction false} PreHashInjective(x: string, k: nat, y: string, m: nat)
    requires PreHash(x, k) == PreHash(y, m)
    ensures (x == y && k == m) || (k > 0 && m == 0 && y == x + ":" + Decimal(k)) || (m > 0 && k == 0 && x == y + ":" + Decimal(m))
  {
    if k > 0 && m > 0 {
      DecimalHasNoColon(k);
      DecimalHasNoColon(m);
      SplitAtLastColon(x, Decimal(k), y, Decimal(m));
      DecimalInjective(k, m);
    }
  }

  // ----- Occurrence counting -----

  lemma {:induction false} OccurrencesMonotone(uses: seq<string>, id: string, i: nat, j: nat)
    requires i <= j <= |uses|
    ensures Occurrences(uses[..i], id) <= Occurrences(uses[..j], id)
    decreases j - i
  {
    if i < j {
      OccurrencesMonotone(uses, id, i, j - 1);
      assert uses[..j][..j - 1] == uses[..j - 1];
    }
  }

  /** The use at `i` is counted from `i + 1` on. */
  lemma {:induction false} OccurrencesGrow(uses: seq<string>, i: nat, j: nat)
    requires i < j <= |uses|
    ensures Occurrences(uses[..i], uses[i]) < Occurrences(uses[..j], uses[i])
  {
    assert uses[..i + 1][..i] == uses[..i];
    OccurrencesMonotone(uses, uses[i], i + 1, j);
  }

  /** Every occurrence index below the total is taken by some use. */
  lemma {:induction false} UseWithIndex(uses: seq<string>, id: string, n: nat) returns (i: nat)
    requires n < Occurrences(uses, id)
    ensures i < |uses| && uses[i] == id && Occurrences(uses[..i], id) == n
  {
    var front := uses[..|uses| - 1];
    if n < Occurrences(front, id) {
      i := UseWithIndex(front, id, n);
      assert front[..i] == uses[..i];
    } else {
      i := |uses| - 1;
    }
  }

  lemma {:induction false} UsedIsCounted(uses: seq<string>, id: string)
    requires id in uses
    ensures Occurrences(uses, id) > 0
  {
    var i :| 0 <= i < |uses| && uses[i] == id;
    OccurrencesGrow(uses, i, |uses|);
    assert uses[..|uses|] == uses;
  }

  // ----- Main result -----

  /** The texts of a sequence of uses are pairwise distinct exactly when no two used IDs clash. */
  lemma {:induction false} TextsDistinctIffNoClash(uses: seq<string>)
    ensures TextsDistinct(uses) <==> !exists a, b, n :: Clash(uses, a, b, n)
  {
    assert uses[..|uses|] == uses;
    if a, b, n :| Clash(uses, a, b, n) {
      UsedIsCounted(uses, a);
      var i := UseWithIndex(uses, a, 0);
      var j := UseWithIndex(uses, b, n);
      assert |a| > |b|;
      assert i != j;
      assert TextAt(uses, i) == TextAt(uses, j);
    }
    forall i, j | 0 <= i < j < |uses| && TextAt(uses, i) == TextAt(uses, j)
      ensures exists a, b, n :: Clash(uses, a, b, n)
    {
      var x, y := uses[i], uses[j];
      var k, m := Occurrences(uses[..i], x), Occurrences(uses[..j], y);
      OccurrencesGrow(uses, i, j);
      OccurrencesGrow(uses, i, |uses|);
      OccurrencesGrow(uses, j, |uses|);
      PreHashInjective(x, k, y, m);
      if k > 0 {
        assert Clash(uses, y, x, k);
      } else {
        assert Clash(uses, x, y, m);
      }
    }
  }

  /** Counts how often each step ID was used in one invocation. */
  class StepIDCounter {
    var counts: Counts
    ghost var uses: seq<string>

    ghost predicate Valid()
      reads this
    {
      forall id :: Count(counts, id) == Occurrences(uses, id)
    }

    constructor ()
      ensures Valid() && uses == [] && counts == map[]
    {
      counts := map[];
      uses := [];
    }

    /** Raises the count of `id` and returns the new count. */
    method Increment(id: string) returns (n: nat)
      requires Valid()
      modifies this
      ensures Valid() && uses == old(uses) + [id]
      ensures counts == Bump(old(counts), id)
      ensures n == Occurrences(uses, id)
    {
      if id !in counts {
        counts := counts[id := 0];
      }
      counts := counts[id := counts[id] + 1];
      n := counts[id];
      uses := uses + [id];
      assert uses[..|uses| - 1] == old(uses);
    }

    /** Parses the next use of `id`; its text is the one `TextAt` assigns to that use. */
    method ParseStepID(id: string) returns (p: ParsedStepID)
      requires Valid()
      modifies this
      ensures Valid() && uses == old(uses) + [id]
      ensures counts == Bump(old(counts), id)
      ensures p == Parse(id, old(Count(counts, id)))
      ensures p.hashed == TextAt(uses, |old(uses)|) && p.userFacing == id
      ensures var earlier := Occurrences(old(uses), id);
              && p.hashed == (if earlier == 0 then id else id + ":" + Decimal(earlier))
              && p.index == if earlier == 0 then None else Some(earlier)
    {
      var preHashed := id;
      var idCount := Increment(id);
      assert uses[..|uses| - 1] == old(uses);
      if idCount > 1 {
        preHashed := id + ":" + Decimal(idCount - 1);
      }
      p := ParsedStepID(preHashed, id, if idCount > 1 then Some(idCount - 1) else None);
    }
  }
}
