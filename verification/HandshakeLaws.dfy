/** What the handshake writes to the shared state over a run, and which durations it understands. */
module HandshakeLaws {
  import opened Values
  import opened StepIds
  import opened Handshakes

  // ----- Durations -----

  function Zeros(m: nat): string {
    seq(m, _ => '0')
  }

  lemma LastDigit(front: string, d: nat)
    requires d < 10 && ParseDigits(front).Some?
    ensures ParseDigits(front + [Digit(d)]) == Some(10 * ParseDigits(front).value + d)
  {
    var text := front + [Digit(d)];
    DigitParses(d);
    assert text[..|text| - 1] == front;
  }

  lemma {:induction false} ZerosCountNothing(m: nat, n: nat)
    ensures ParseDigits(Zeros(m) + Decimal(n)) == Some(n)
    decreases n, m
  {
    if n >= 10 {
      ZerosCountNothing(m, n / 10);
      LastDigit(Zeros(m) + Decimal(n / 10), n % 10);
      assert Zeros(m) + Decimal(n) == (Zeros(m) + Decimal(n / 10)) + [Digit(n % 10)];
    } else if m == 0 {
      assert Zeros(0) + Decimal(n) == Decimal(n);
      DecimalParses(n);
    } else {
      OnlyZeros(m);
      LastDigit(Zeros(m), n);
    }
  }

  lemma {:induction false} OnlyZeros(m: nat)
    requires m > 0
    ensures ParseDigits(Zeros(m)) == Some(0)
  {
    DigitParses(0);
    if m == 1 {
      assert Zeros(1) == [Digit(0)];
    } else {
      OnlyZeros(m - 1);
      LastDigit(Zeros(m - 1), 0);
      assert Zeros(m) == Zeros(m - 1) + [Digit(0)];
    }
  }

  lemma DigitOf(c: char)
    requires DigitValue(c).Some?
    ensures DigitValue(c).value < 10 && c == Digit(DigitValue(c).value)
  {
    var d := DigitValue(c).value;
    assert "0123456789"[d] as int == d + ('0' as int);
  }

  lemma ParseUnfolds(text: string)
    requires ParseDigits(text).Some? && |text| > 1
    ensures var front, last := text[..|text| - 1], text[|text| - 1];
            && text == front + [last] && ParseDigits(front).Some? && DigitValue(last).Some?
            && ParseDigits(text).value == 10 * ParseDigits(front).value + DigitValue(last).value
  {
  }

  lemma DecimalGrows(f: nat, d: nat)
    requires f > 0 && d < 10
    ensures Decimal(10 * f + d) == Decimal(f) + [Digit(d)]
  {
  }

  lemma DecimalOfDigit(d: nat)
    requires d < 10
    ensures Decimal(d) == [Digit(d)]
  {
  }

  /** Text that parses is the decimal text of its number behind some zeros. */
  lemma {:induction false} ParsedIsDecimal(text: string) returns (m: nat)
    requires ParseDigits(text).Some?
    ensures text == Zeros(m) + Decimal(ParseDigits(text).value)
  {
    if |text| == 1 {
      DigitOf(text[0]);
      DecimalOfDigit(DigitValue(text[0]).value);
      m := 0;
    } else {
      ParseUnfolds(text);
      hide ParseDigits, Decimal, DigitValue;
      var front, last := text[..|text| - 1], text[|text| - 1];
      DigitOf(last);
      var d, f := DigitValue(last).value, ParseDigits(front).value;
      m := ParsedIsDecimal(front);
      if f == 0 {
        DecimalOfDigit(0);
        DecimalOfDigit(d);
        assert Zeros(m) + [Digit(0)] == Zeros(m + 1);
        m := m + 1;
      } else {
        DecimalGrows(f, d);
        Associates(Zeros(m), Decimal(f), [Digit(d)]);
      }
    }
  }

  lemma Associates(a: string, b: string, c: string)
    ensures (a + b) + c == a + (b + c)
  {
  }

  /** The text is a number of seconds: zeros, its decimal text and an `s`, with or without a line break at the end. */
  ghost predicate Seconds(text: string, n: nat) {
    exists m: nat :: text == Zeros(m) + Decimal(n) + "s" || text == Zeros(m) + Decimal(n) + "s\n"
  }

  /** The digits of a line with its `s`, and perhaps a line break. */
  lemma DurationOfDigits(digits: string)
    ensures ParseDuration(digits + "s") == ParseDigits(digits) && ParseDuration(digits + "s\n") == ParseDigits(digits)
  {
    hide ParseDigits;
    var line, text := digits + "s", digits + "s\n";
    assert line[|line| - 1] == 's' && line[..|line| - 1] == digits;
    assert text[|text| - 1] == '\n' && text[..|text| - 1] == line;
  }

  lemma DigitsOfDuration(text: string) returns (digits: string)
    requires ParseDuration(text).Some?
    ensures ParseDigits(digits) == ParseDuration(text) && (text == digits + "s" || text == digits + "s\n")
  {
    hide ParseDigits;
    var line := if text != [] && text[|text| - 1] == '\n' then text[..|text| - 1] else text;
    digits := line[..|line| - 1];
    assert line == digits + "s";
    if line != text { assert text == line + "\n" && line + "\n" == digits + "s\n"; }
  }

  /** Durations that are read as `n` seconds, exactly. Every other text is an error. */
  lemma {:induction false} DurationIff(text: string, n: nat)
    ensures ParseDuration(text) == Some(n) <==> Seconds(text, n)
  {
    hide ParseDuration, ParseDigits, Decimal;
    if ParseDuration(text) == Some(n) {
      var digits := DigitsOfDuration(text);
      var m := ParsedIsDecimal(digits);
    }
    if Seconds(text, n) {
      var m: nat :| text == Zeros(m) + Decimal(n) + "s" || text == Zeros(m) + Decimal(n) + "s\n";
      ZerosCountNothing(m, n);
      DurationOfDigits(Zeros(m) + Decimal(n));
    }
  }

  // ----- What a run leaves in the shared state -----

  /** The message at the end of a run is a HELLO that the handshake waits for. */
  ghost predicate HelloAccepted(overridden: Option<nat>, es: seq<Event>, i: nat)
    requires i < |es|
  {
    var p := Run(overridden, es[..i]);
    p.Some? && es[i] == Receive(Hello) && p.value.h.phase.AwaitingHello?
  }

  /** The message is a valid READY that the handshake waits for. */
  ghost predicate ReadyAccepted(overridden: Option<nat>, es: seq<Event>, i: nat)
    requires i < |es|
  {
    var p := Run(overridden, es[..i]);
    p.Some? && es[i].Receive? && es[i].msg.Ready? && es[i].msg.interval.Some? && p.value.h.phase.AwaitingReady?
  }

  /** A READY was accepted, and no HELLO since. */
  ghost predicate ReadySinceHello(overridden: Option<nat>, es: seq<Event>) {
    exists i :: 0 <= i < |es| && ReadyAccepted(overridden, es, i)
                && forall j :: i < j < |es| ==> !HelloAccepted(overridden, es, j)
  }

  lemma SameBefore(overridden: Option<nat>, es: seq<Event>, e: Event, i: nat)
    requires i < |es|
    ensures HelloAccepted(overridden, es + [e], i) == HelloAccepted(overridden, es, i)
    ensures ReadyAccepted(overridden, es + [e], i) == ReadyAccepted(overridden, es, i)
  {
    assert (es + [e])[..i] == es[..i] && (es + [e])[i] == es[i];
  }

  lemma ReadySnoc(overridden: Option<nat>, es: seq<Event>, e: Event)
    ensures var all, n := es + [e], |es|;
            ReadySinceHello(overridden, all) <==>
              ReadyAccepted(overridden, all, n) || (ReadySinceHello(overridden, es) && !HelloAccepted(overridden, all, n))
  {
    var all, n := es + [e], |es|;
    forall i | 0 <= i < n
      ensures HelloAccepted(overridden, all, i) == HelloAccepted(overridden, es, i)
      ensures ReadyAccepted(overridden, all, i) == ReadyAccepted(overridden, es, i)
    {
      SameBefore(overridden, es, e, i);
    }
    hide HelloAccepted, ReadyAccepted;
    if ReadySinceHello(overridden, es) && !HelloAccepted(overridden, all, n) {
      var i :| 0 <= i < |es| && ReadyAccepted(overridden, es, i)
               && forall j :: i < j < |es| ==> !HelloAccepted(overridden, es, j);
      assert ReadyAccepted(overridden, all, i);
    }
    if ReadyAccepted(overridden, all, n) { assert ReadySinceHello(overridden, all); }
  }

  lemma StepWrites(overridden: Option<nat>, p: Progress, e: Event)
    requires Fits(p.h) && Step(overridden, p, e).Some?
    ensures var q := Step(overridden, p, e).value;
            var ready := e.Receive? && e.msg.Ready? && e.msg.interval.Some? && p.h.phase.AwaitingReady?;
            && q.h.handshakeComplete == (ready || (p.h.handshakeComplete && !(e == Receive(Hello) && p.h.phase.AwaitingHello?)))
            && q.h.lease == if ready then NewLease(p.h, e.msg.interval.value, overridden) else p.h.lease
  {
    hide ParseDuration, NewLease;
  }

  lemma RunUnfolds(overridden: Option<nat>, es: seq<Event>, e: Event)
    requires Run(overridden, es + [e]).Some?
    ensures Run(overridden, es).Some? && Fits(Run(overridden, es).value.h)
    ensures Step(overridden, Run(overridden, es).value, e) == Run(overridden, es + [e])
  {
    RunSnoc(overridden, Progress(START, 0, 0, 0), es, e);
    hide Step;
  }

  lemma AcceptedLast(overridden: Option<nat>, es: seq<Event>, e: Event)
    requires Run(overridden, es).Some?
    ensures var p, all := Run(overridden, es).value, es + [e];
            && (HelloAccepted(overridden, all, |es|) <==> e == Receive(Hello) && p.h.phase.AwaitingHello?)
            && (ReadyAccepted(overridden, all, |es|) <==>
                  e.Receive? && e.msg.Ready? && e.msg.interval.Some? && p.h.phase.AwaitingReady?)
  {
    assert (es + [e])[..|es|] == es;
  }

  /**
   * In every run, the worker counts as initialised if and only if a READY was accepted and no HELLO since: a
   * reset alone does not take it back.
   */
  lemma {:induction false} InitialisedIff(overridden: Option<nat>, es: seq<Event>)
    requires Run(overridden, es).Some?
    ensures Run(overridden, es).value.h.handshakeComplete <==> ReadySinceHello(overridden, es)
  {
    if es != [] {
      var front, e := es[..|es| - 1], es[|es| - 1];
      assert es == front + [e];
      RunUnfolds(overridden, front, e);
      InitialisedIff(overridden, front);
      hide Step, Run, NewLease, ReadySinceHello, HelloAccepted, ReadyAccepted;
      StepWrites(overridden, Run(overridden, front).value, e);
      AcceptedLast(overridden, front, e);
      ReadySnoc(overridden, front, e);
    } else {
      assert !ReadySinceHello(overridden, []);
    }
  }

  /** The READY accepted at `i` names a number of seconds that is used. */
  ghost predicate NamesLease(overridden: Option<nat>, es: seq<Event>, i: nat, n: nat)
    requires i < |es|
  {
    ReadyAccepted(overridden, es, i) && es[i].Receive? && es[i].msg.Ready? && es[i].msg.interval.Some?
    && if overridden.Some? then overridden == Some(n) else Seconds(es[i].msg.interval.value, n)
  }

  ghost predicate NamesAny(overridden: Option<nat>, es: seq<Event>, i: nat)
    requires i < |es|
  {
    exists n :: NamesLease(overridden, es, i, n)
  }

  /** The last accepted READY that names a number of seconds names `n`. */
  ghost predicate LastNamed(overridden: Option<nat>, es: seq<Event>, n: nat) {
    exists i :: 0 <= i < |es| && NamesLease(overridden, es, i, n) && forall j :: i < j < |es| ==> !NamesAny(overridden, es, j)
  }

  lemma NamedBefore(overridden: Option<nat>, es: seq<Event>, e: Event, i: nat)
    requires i < |es|
    ensures NamesAny(overridden, es + [e], i) == NamesAny(overridden, es, i)
    ensures forall n :: NamesLease(overridden, es + [e], i, n) == NamesLease(overridden, es, i, n)
  {
    SameBefore(overridden, es, e, i);
    assert (es + [e])[i] == es[i];
    hide ReadyAccepted, Seconds;
    assert forall n :: NamesLease(overridden, es + [e], i, n) == NamesLease(overridden, es, i, n);
    hide NamesLease;
    if NamesAny(overridden, es, i) {
      var n :| NamesLease(overridden, es, i, n);
      assert NamesLease(overridden, es + [e], i, n);
    }
  }

  lemma NamedSnoc(overridden: Option<nat>, es: seq<Event>, e: Event, n: nat)
    ensures var all, k := es + [e], |es|;
            LastNamed(overridden, all, n) <==>
              NamesLease(overridden, all, k, n) || (LastNamed(overridden, es, n) && !NamesAny(overridden, all, k))
  {
    var all, k := es + [e], |es|;
    forall i | 0 <= i < k
      ensures NamesAny(overridden, all, i) == NamesAny(overridden, es, i)
      ensures NamesLease(overridden, all, i, n) == NamesLease(overridden, es, i, n)
    {
      NamedBefore(overridden, es, e, i);
    }
    assert NamesLease(overridden, all, k, n) ==> NamesAny(overridden, all, k);
    hide NamesLease, NamesAny;
    if LastNamed(overridden, es, n) && !NamesAny(overridden, all, k) {
      var i :| 0 <= i < |es| && NamesLease(overridden, es, i, n) && forall j :: i < j < |es| ==> !NamesAny(overridden, es, j);
      assert NamesLease(overridden, all, i, n);
    }
    if NamesLease(overridden, all, k, n) { assert LastNamed(overridden, all, n); }
  }

  lemma NewLeaseIs(h: Handshake, text: string, overridden: Option<nat>, n: nat)
    ensures NewLease(h, text, overridden) == Some(n) <==>
            || (if overridden.Some? then overridden == Some(n) else Seconds(text, n))
            || (overridden.None? && (forall m :: !Seconds(text, m)) && h.lease == Some(n))
  {
    hide Seconds, ParseDuration;
    DurationIff(text, n);
    if ParseDuration(text).Some? {
      DurationIff(text, ParseDuration(text).value);
    }
    forall m ensures ParseDuration(text).None? ==> !Seconds(text, m) {
      if m >= 0 { DurationIff(text, m); }
    }
  }

  lemma NamesLast(overridden: Option<nat>, es: seq<Event>, e: Event, n: nat)
    requires Run(overridden, es).Some?
    ensures var p := Run(overridden, es).value;
            NamesLease(overridden, es + [e], |es|, n) <==>
              && e.Receive? && e.msg.Ready? && e.msg.interval.Some? && p.h.phase.AwaitingReady?
              && if overridden.Some? then overridden == Some(n) else Seconds(e.msg.interval.value, n)
  {
    AcceptedLast(overridden, es, e);
    assert (es + [e])[|es|] == e;
    hide ReadyAccepted, Seconds, Run;
  }

  /**
   * In every run, the lease interval is what the last accepted READY with a valid one named, or the worker's
   * own setting if there is one and a READY was accepted; without such a READY there is none.
   */
  lemma {:induction false} LeaseIff(overridden: Option<nat>, es: seq<Event>, n: nat)
    requires Run(overridden, es).Some?
    ensures Run(overridden, es).value.h.lease == Some(n) <==> LastNamed(overridden, es, n)
  {
    if es != [] {
      var front, e := es[..|es| - 1], es[|es| - 1];
      assert es == front + [e];
      RunUnfolds(overridden, front, e);
      LeaseIff(overridden, front, n);
      hide Step, Run, NewLease, LastNamed, NamesLease, Seconds;
      assert NamesAny(overridden, es, |front|) <==> exists m :: NamesLease(overridden, es, |front|, m);
      var p := Run(overridden, front).value;
      StepWrites(overridden, p, e);
      NamedSnoc(overridden, front, e, n);
      forall m: nat ensures NamesLease(overridden, es, |front|, m) <==>
              && e.Receive? && e.msg.Ready? && e.msg.interval.Some? && p.h.phase.AwaitingReady?
              && if overridden.Some? then overridden == Some(m) else Seconds(e.msg.interval.value, m)
      {
        NamesLast(overridden, front, e, m);
      }
      if e.Receive? && e.msg.Ready? && e.msg.interval.Some? { NewLeaseIs(p.h, e.msg.interval.value, overridden, n); }
    } else {
      assert !LastNamed(overridden, [], n);
    }
  }
}
