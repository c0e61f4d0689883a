/** Phone numbers of lookup jobs: from what a client typed to what callbacks are matched by. */
module Phones {
  import opened Common
  import opened Statistics

  // Lengths are counted in runes. The program counts bytes, but a text with any wider digit is
  // refused by the final check of both, and on the rest the two agree.

  predicate Digit(c: char) {
    '0' <= c <= '9'
  }

  predicate Digits(s: string) {
    forall i :: 0 <= i < |s| ==> Digit(s[i])
  }

  /** The rune classes agree with ASCII where it matters here. */
  ghost predicate Standard(u: Runes) {
    forall c: char :: c as int < 128 ==>
      (u.isDigit(c) <==> Digit(c)) && (u.isSpace(c) <==> c in "\t\n\r " || c as int == 11 || c as int == 12)
  }

  datatype Normal = Phone(e164: string) | Empty | Bad

  function StripNoise(u: Runes, s: string): string {
    if s != [] && s[0] == '+' then "+" + DigitsOnly(u, s[1..]) else DigitsOnly(u, s)
  }

  predicate ValidE164(s: string) {
    s != [] && s[0] == '+' && 8 <= |s| - 1 <= 15 && s[1] != '0' && Digits(s[1..])
  }

  /** National forms gain the country code; a leading plus is taken at its word. */
  function National(digits: string): string {
    if |digits| == 11 && digits[0] == '8' then "7" + digits[1..]
    else if |digits| == 10 && digits[0] == '9' then "7" + digits
    else digits
  }

  function Normalize(u: Runes, input: string): (r: Normal)
    ensures r.Phone? ==> ValidE164(r.e164)
  {
    var trimmed := Trim(u, input);
    if trimmed == "" then Empty
    else
      var compact := StripNoise(u, trimmed);
      var digits := DigitsOnly(u, compact);
      if digits == "" then Bad
      else
        var e164 := "+" + (if compact[0] == '+' then digits else National(digits));
        if ValidE164(e164) then Phone(e164) else Bad
  }

  predicate RuMobile(u: Runes, e164: string) {
    var d := DigitsOnly(u, e164);
    |d| == 11 && d[0] == '7' && d[1] == '9'
  }

  // ---------------------------------------------------------------- the list

  datatype Listed = Listed(phones: seq<string>, deduplicated: nat, invalid: nat, non79: bool, rejected: seq<string>)

  function Accepted(u: Runes, inputs: seq<string>): seq<string> {
    if inputs == [] then []
    else
      var rest := Accepted(u, inputs[..|inputs| - 1]);
      var n := Normalize(u, inputs[|inputs| - 1]);
      if n.Phone? && n.e164 !in rest then rest + [n.e164] else rest
  }

  function InvalidCount(u: Runes, inputs: seq<string>): nat {
    if inputs == [] then 0
    else InvalidCount(u, inputs[..|inputs| - 1]) + (if Normalize(u, inputs[|inputs| - 1]).Phone? then 0 else 1)
  }

  /** The texts reported back: every refused one, trimmed, once, in order. */
  function RejectedTexts(u: Runes, inputs: seq<string>): seq<string> {
    if inputs == [] then []
    else
      var rest := RejectedTexts(u, inputs[..|inputs| - 1]);
      var last := inputs[|inputs| - 1];
      if Refused(u, last) && Trim(u, last) != "" && Trim(u, last) !in rest then rest + [Trim(u, last)] else rest
  }

  predicate Non79(u: Runes, inputs: seq<string>) {
    exists i :: 0 <= i < |inputs| && Foreign(u, inputs[i])
  }

  predicate Foreign(u: Runes, input: string) {
    Normalize(u, input).Phone? && !RuMobile(u, Normalize(u, input).e164)
  }

  /** What one more input adds to each part of the result. */
  lemma NextInput(u: Runes, inputs: seq<string>, input: string)
    ensures Non79(u, inputs + [input]) <==> Non79(u, inputs) || Foreign(u, input)
    ensures var n, rest := Normalize(u, input), Accepted(u, inputs);
      Accepted(u, inputs + [input]) == if n.Phone? && n.e164 !in rest then rest + [n.e164] else rest
    ensures InvalidCount(u, inputs + [input]) == InvalidCount(u, inputs) + (if Normalize(u, input).Phone? then 0 else 1)
    ensures var t, rest := Trim(u, input), RejectedTexts(u, inputs);
      RejectedTexts(u, inputs + [input]) == if Refused(u, input) then AppendUnique(rest, t) else rest
  {
    hide Foreign, Refused, Normalize, Trim;
    assert (inputs + [input])[..|inputs|] == inputs;
    if Non79(u, inputs) {
      var i :| 0 <= i < |inputs| && Foreign(u, inputs[i]);
      assert (inputs + [input])[i] == inputs[i];
    } else if Foreign(u, input) {
      assert (inputs + [input])[|inputs|] == input;
    }
  }

  lemma NoInputs(u: Runes)
    ensures Accepted(u, []) == [] && InvalidCount(u, []) == 0 && RejectedTexts(u, []) == [] && !Non79(u, [])
        && Elements<string>([]) == {}
  {
  }

  lemma ElementsNext(s: seq<string>, x: string)
    ensures x in Elements(s) <==> x in s
    ensures Elements(s + [x]) == Elements(s) + {x}
  {
  }

  function AppendUnique(dst: seq<string>, token: string): seq<string> {
    if token == "" || token in dst then dst else dst + [token]
  }

  /** The set mirrors the list, so that membership is looked up and not searched for. */
  method AppendUniqueToken(dst: seq<string>, seen: set<string>, token: string) returns (out: seq<string>,
      now: set<string>)
    requires seen == Elements(dst)
    ensures out == AppendUnique(dst, token) && now == Elements(out)
  {
    if token == "" || token in seen {
      return dst, seen;
    }
    return dst + [token], seen + {token};
  }

  method NormalizeAndDeduplicate(u: Runes, inputs: seq<string>) returns (out: Listed)
    ensures out.phones == Accepted(u, inputs) && out.invalid == InvalidCount(u, inputs)
    ensures |out.phones| + out.deduplicated + out.invalid == |inputs|
    ensures out.non79 == Non79(u, inputs)
    ensures out.rejected == RejectedTexts(u, inputs)
  {
    hide Normalize, RuMobile, Trim, Non79, Accepted, InvalidCount, RejectedTexts, AppendUnique, Elements;
    NoInputs(u);
    assert inputs[..0] == [];
    var phones: seq<string>, rejected: seq<string> := [], [];
    var seen: set<string>, tokens: set<string> := {}, {};
    var deduplicated, invalid, non79 := 0, 0, false;
    for i := 0 to |inputs|
      invariant phones == Accepted(u, inputs[..i]) && invalid == InvalidCount(u, inputs[..i])
      invariant |phones| + deduplicated + invalid == i
      invariant non79 == Non79(u, inputs[..i])
      invariant rejected == RejectedTexts(u, inputs[..i])
      invariant seen == Elements(phones) && tokens == Elements(rejected)
    {
      assert inputs[..i + 1] == inputs[..i] + [inputs[i]];
      NextInput(u, inputs[..i], inputs[i]);
      var n := Normalize(u, inputs[i]);
      var trimmed := Trim(u, inputs[i]);
      if !n.Phone? {
        invalid := invalid + 1;
        rejected, tokens := AppendUniqueToken(rejected, tokens, trimmed);
        continue;
      }
      if !RuMobile(u, n.e164) {
        non79 := true;
        rejected, tokens := AppendUniqueToken(rejected, tokens, trimmed);
      }
      ElementsNext(phones, n.e164);
      if n.e164 in seen {
        deduplicated := deduplicated + 1;
        continue;
      }
      seen := seen + {n.e164};
      phones := phones + [n.e164];
    }
    assert inputs[..|inputs|] == inputs;
    out := Listed(phones, deduplicated, invalid, non79, rejected);
  }

  /** Exactly the refused inputs that say anything are reported back. */
  lemma {:induction false} RejectedAreRefused(u: Runes, inputs: seq<string>, t: string)
    ensures Distinct(RejectedTexts(u, inputs))
    ensures t in RejectedTexts(u, inputs) <==> t != "" && exists i :: 0 <= i < |inputs| && RefusedAs(u, inputs[i], t)
  {
    hide Refused, Trim;
    if inputs != [] {
      var init, last := inputs[..|inputs| - 1], inputs[|inputs| - 1];
      RejectedAreRefused(u, init, t);
      if i :| 0 <= i < |init| && RefusedAs(u, init[i], t) {
        assert RefusedAs(u, inputs[i], t);
      }
      if i :| 0 <= i < |inputs| && RefusedAs(u, inputs[i], t) {
        assert i < |init| ==> init[i] == inputs[i];
      }
    }
  }

  /** Both lists keep the order in which the inputs first say a thing: a longer input only adds at the end. */
  lemma {:induction false} ListedInOrder(u: Runes, inputs: seq<string>, more: seq<string>)
    ensures Accepted(u, inputs) <= Accepted(u, inputs + more)
    ensures RejectedTexts(u, inputs) <= RejectedTexts(u, inputs + more)
    decreases |more|
  {
    hide Normalize, Trim, Refused;
    if more == [] {
      assert inputs + more == inputs;
    } else {
      var init, last := more[..|more| - 1], more[|more| - 1];
      ListedInOrder(u, inputs, init);
      assert inputs + more == (inputs + init) + [last];
      NextInput(u, inputs + init, last);
    }
  }

  predicate RefusedAs(u: Runes, input: string, t: string) {
    t == Trim(u, input) && Refused(u, input)
  }

  predicate Refused(u: Runes, input: string) {
    var n := Normalize(u, input);
    !n.Phone? || !RuMobile(u, n.e164)
  }

  datatype Prepared = Phones(phones: seq<string>,
    deduplicated: nat) | NoInput | RejectedList(tokens: seq<string>) | TooMany | NotSingle

  /** The conditions a list must meet, each one a caller can check. */
  predicate Fits(u: Runes, inputs: seq<string>, single: bool, maxPhones: int) {
    && inputs != []
    && (forall i :: 0 <= i < |inputs| ==> !Refused(u, inputs[i]))
    && (maxPhones > 0 ==> |Accepted(u, inputs)| <= maxPhones)
    && (single ==> |Accepted(u, inputs)| == 1)
  }

  method PreparePhones(u: Runes, inputs: seq<string>, single: bool, maxPhones: int) returns (r: Prepared)
    ensures r.Phones? <==>
      && inputs != [] && (forall i :: 0 <= i < |inputs| ==> !Refused(u, inputs[i]))
      && (maxPhones > 0 ==> |Accepted(u, inputs)| <= maxPhones) && (single ==> |Accepted(u, inputs)| == 1)
    ensures r.Phones? ==> r.phones == Accepted(u, inputs) && |r.phones| + r.deduplicated == |inputs|
    ensures r == NoInput <==> inputs == []
    ensures r.RejectedList? <==> exists i :: 0 <= i < |inputs| && Refused(u, inputs[i])
    ensures r.RejectedList? ==> r.tokens == RejectedTexts(u, inputs)
    ensures r == TooMany ==> maxPhones > 0 && |Accepted(u, inputs)| > maxPhones
    ensures r == NotSingle ==>
      single && |Accepted(u, inputs)| > 1 && (maxPhones > 0 ==> |Accepted(u, inputs)| <= maxPhones)
  {
    if |inputs| == 0 {
      return NoInput;
    }
    var norm := NormalizeAndDeduplicate(u, inputs);
    NothingInvalid(u, inputs);
    NoneRefused(u, inputs);
    if norm.invalid > 0 || norm.non79 {
      return RejectedList(norm.rejected);
    }
    AcceptedIsAll(u, inputs);
    assert |norm.phones| > 0;
    if maxPhones > 0 && |norm.phones| > maxPhones {
      return TooMany;
    }
    if single && |norm.phones| != 1 {
      return NotSingle;
    }
    return Phones(norm.phones, norm.deduplicated);
  }

  lemma NoneRefused(u: Runes, inputs: seq<string>)
    ensures (forall i :: 0 <= i < |inputs| ==> !Refused(u, inputs[i])) <==>
            !Non79(u, inputs) && forall i :: 0 <= i < |inputs| ==> Normalize(u, inputs[i]).Phone?
  {
    hide Normalize, RuMobile;
  }

  lemma {:induction false} NothingInvalid(u: Runes, inputs: seq<string>)
    ensures InvalidCount(u, inputs) == 0 <==> forall i :: 0 <= i < |inputs| ==> Normalize(u, inputs[i]).Phone?
  {
    hide Normalize;
    if inputs != [] {
      var init := inputs[..|inputs| - 1];
      NothingInvalid(u, init);
      assert forall i :: 0 <= i < |init| ==> init[i] == inputs[i];
    }
  }

  /** The accepted phones are the normal forms of the inputs, each once. */
  lemma {:induction false} AcceptedIsAll(u: Runes, inputs: seq<string>)
    ensures Distinct(Accepted(u, inputs))
    ensures forall i ::
          0 <= i < |inputs| && Normalize(u, inputs[i]).Phone? ==> Normalize(u, inputs[i]).e164 in Accepted(u, inputs)
    ensures forall p :: p in Accepted(u, inputs) ==> exists i ::
          0 <= i < |inputs| && Normalize(u, inputs[i]) == Phone(p)
  {
    hide Normalize;
    if inputs != [] {
      var init := inputs[..|inputs| - 1];
      AcceptedIsAll(u, init);
      var all, rest := Accepted(u, inputs), Accepted(u, init);
      forall i | 0 <= i < |inputs| && Normalize(u, inputs[i]).Phone? ensures Normalize(u, inputs[i]).e164 in all {
        if i < |init| {
          assert init[i] == inputs[i];
        }
      }
      forall p | p in all ensures exists i :: 0 <= i < |inputs| && Normalize(u, inputs[i]) == Phone(p) {
        if p in rest {
          var i :| 0 <= i < |init| && Normalize(u, init[i]) == Phone(p);
          assert Normalize(u, inputs[i]) == Phone(p);
        } else {
          assert Normalize(u, inputs[|inputs| - 1]) == Phone(p);
        }
      }
    }
  }

  // ---------------------------------------------------------------- what is stored

  lemma {:induction false} DigitsKept(u: Runes, s: string)
    requires Standard(u) && Digits(s)
    ensures DigitsOnly(u, s) == s
  {
    if s != [] {
      DigitsKept(u, s[..|s| - 1]);
    }
  }

  lemma {:induction false} PlusDropped(u: Runes, s: string)
    requires Standard(u) && Digits(s)
    ensures DigitsOnly(u, "+" + s) == s
  {
    if s == [] {
      assert "+" + s == "+";
      assert DigitsOnly(u, "+") == DigitsOnly(u, "+"[..0]) + [];
    } else {
      assert ("+" + s)[..|s|] == "+" + s[..|s| - 1];
      PlusDropped(u, s[..|s| - 1]);
    }
  }

  /** A stored number: plus, seven, nine and nine digits more. */
  predicate Mobile(e164: string) {
    |e164| == 12 && e164[0] == '+' && e164[1] == '7' && e164[2] == '9' && Digits(e164[1..])
  }

  lemma MobileExactly(u: Runes, e164: string)
    requires Standard(u) && ValidE164(e164)
    ensures RuMobile(u, e164) <==> Mobile(e164)
    ensures DigitsOnly(u, e164) == e164[1..]
  {
    assert e164 == "+" + e164[1..];
    PlusDropped(u, e164[1..]);
  }

  /** Every list that is accepted is free of duplicates and holds Russian mobile numbers only. */
  lemma PreparedAreMobile(u: Runes, inputs: seq<string>, single: bool, maxPhones: int)
    requires Standard(u) && Fits(u, inputs, single, maxPhones)
    ensures var phones := Accepted(u, inputs);
      Distinct(phones) && phones != [] && forall i :: 0 <= i < |phones| ==> Mobile(phones[i])
  {
    hide Normalize, RuMobile, Mobile;
    AcceptedIsAll(u, inputs);
    var phones := Accepted(u, inputs);
    assert !Refused(u, inputs[0]);
    forall i | 0 <= i < |phones| ensures Mobile(phones[i]) {
      var p := phones[i];
      assert p in phones;
      var j :| 0 <= j < |inputs| && Normalize(u, inputs[j]) == Phone(p);
      assert !Refused(u, inputs[j]);
      MobileExactly(u, p);
    }
  }

  // ---------------------------------------------------------------- callbacks

  function AsciiDigits(s: string): string {
    if s == [] then [] else AsciiDigits(s[..|s| - 1]) + (if Digit(s[|s| - 1]) then [s[|s| - 1]] else [])
  }

  function CanonicalDigits(raw: string): string {
    National(AsciiDigits(raw))
  }

  method CanonicalPhoneDigits(raw: string) returns (d: string)
    ensures d == CanonicalDigits(raw)
  {
    d := "";
    for i := 0 to |raw|
      invariant d == AsciiDigits(raw[..i])
    {
      assert raw[..i + 1][..i] == raw[..i];
      if '0' <= raw[i] <= '9' {
        d := d + [raw[i]];
      }
    }
    assert raw[..|raw|] == raw;
    if |d| == 11 && d[0] == '8' {
      return "7" + d[1..];
    }
    if |d| == 10 && d[0] == '9' {
      return "7" + d;
    }
  }

  function Tail(digits: string): string {
    if |digits| < 10 then "" else digits[|digits| - 10..]
  }

  predicate CallbackMatches(item: string, callback: string) {
    callback == "" ||
    var a, b := CanonicalDigits(item), CanonicalDigits(callback);
    a == b || (Tail(a) != "" && Tail(a) == Tail(b))
  }

  lemma {:induction false} AsciiDigitsKept(s: string)
    requires Digits(s)
    ensures AsciiDigits(s) == s
  {
    if s != [] {
      AsciiDigitsKept(s[..|s| - 1]);
    }
  }

  /** The stored digits of a phone, and of nothing else, are matched by the same digits. */
  lemma StoredIsCanonical(u: Runes, e164: string)
    requires Standard(u) && Mobile(e164)
    ensures DigitsOnly(u, e164) == e164[1..] && CanonicalDigits(e164[1..]) == e164[1..]
  {
    MobileExactly(u, e164);
    AsciiDigitsKept(e164[1..]);
  }

  /** A callback that names a phone at all matches at most one stored number. */
  lemma CallbackNamesOne(p: string, q: string, callback: string)
    requires Mobile(p) && Mobile(q) && callback != ""
    requires CallbackMatches(p[1..], callback) && CallbackMatches(q[1..], callback)
    ensures p == q
  {
    AsciiDigitsKept(p[1..]);
    AsciiDigitsKept(q[1..]);
    var b := CanonicalDigits(callback);
    TailOfMobile(p);
    TailOfMobile(q);
    assert Tail(p[1..]) == Tail(b) && Tail(q[1..]) == Tail(b);
  }

  lemma TailOfMobile(p: string)
    requires Mobile(p)
    ensures Tail(p[1..]) == p[2..] && p == "+7" + p[2..]
  {
  }

  /** Between stored numbers matching is equality. */
  lemma StoredMatchExactly(p: string, q: string)
    requires Mobile(p) && Mobile(q)
    ensures CallbackMatches(p[1..], q[1..]) <==> p == q
  {
    AsciiDigitsKept(q[1..]);
    if CallbackMatches(p[1..], q[1..]) {
      assert CallbackMatches(q[1..], q[1..]);
      CallbackNamesOne(p, q, q[1..]);
    }
  }

  // ---------------------------------------------------------------- the forms of one number

  lemma {:induction false} NothingToTrim(u: Runes, s: string)
    requires s != [] && !u.isSpace(s[0]) && !u.isSpace(s[|s| - 1])
    ensures Trim(u, s) == s
  {
  }

  lemma DigitStays(u: Runes, c: char)
    requires Standard(u) && (Digit(c) || c == '+')
    ensures !u.isSpace(c) && (u.isDigit(c) <==> Digit(c))
  {
  }

  lemma NormalizeDigits(u: Runes, s: string)
    requires Standard(u) && Digits(s) && 8 <= |s| <= 15
    ensures Normalize(u, s) == if National(s)[0] != '0' && |National(s)| <= 15 then Phone("+" + National(s)) else Bad
    ensures Normalize(u, "+" + s) == if s[0] != '0' then Phone("+" + s) else Bad
  {
    DigitStays(u, s[0]);
    DigitStays(u, s[|s| - 1]);
    DigitStays(u, '+');
    NothingToTrim(u, s);
    NothingToTrim(u, "+" + s);
    DigitsKept(u, s);
    PlusDropped(u, s);
    assert ("+" + s)[1..] == s;
    var n := National(s);
    assert ("+" + n)[1..] == n;
  }

  /** All four ways to write a Russian mobile number come out as the same phone, which is a fixed point. */
  lemma FormsAgree(u: Runes, ten: string)
    requires Standard(u) && |ten| == 10 && ten[0] == '9' && Digits(ten)
    ensures Normalize(u, ten) == Normalize(u, "8" + ten) == Normalize(u, "7" + ten) == Normalize(u, "+7" + ten) ==
        Phone("+7" + ten)
  {
    hide Normalize, Standard;
    NormalizeDigits(u, ten);
    NormalizeDigits(u, "8" + ten);
    NormalizeDigits(u, "7" + ten);
    assert "+" + ("7" + ten) == "+7" + ten;
    assert ("8" + ten)[1..] == ten;
  }

  lemma {:induction false} DigitsOnlyJoin(u: Runes, a: string, b: string)
    ensures DigitsOnly(u, a + b) == DigitsOnly(u, a) + DigitsOnly(u, b)
    decreases |b|
  {
    if b == [] {
      assert a + b == a;
    } else {
      assert (a + b)[..|a + b| - 1] == a + b[..|b| - 1];
      DigitsOnlyJoin(u, a, b[..|b| - 1]);
    }
  }

  lemma {:induction false} DigitsOnlyTwice(u: Runes, s: string)
    ensures DigitsOnly(u, DigitsOnly(u, s)) == DigitsOnly(u, s)
  {
    if s != [] {
      var init, c := s[..|s| - 1], s[|s| - 1];
      DigitsOnlyTwice(u, init);
      if u.isDigit(c) {
        DigitsOnlyJoin(u, DigitsOnly(u, init), [c]);
        assert [c][..0] == [];
        assert DigitsOnly(u, [c]) == [c];
      } else {
        assert DigitsOnly(u, s) == DigitsOnly(u, init);
      }
    }
  }

  /** Whatever else is in the text, its digits decide, and a leading plus. */
  lemma DigitsDecide(u: Runes, text: string)
    requires Standard(u) && text != []
    ensures DigitsOnly(u, StripNoise(u, text)) == DigitsOnly(u, text)
    ensures DigitsOnly(u, text) != "" ==> (StripNoise(u, text)[0] == '+' <==> text[0] == '+')
  {
    DigitStays(u, '+');
    if text[0] == '+' {
      var rest := text[1..];
      assert text == "+" + rest;
      assert "+"[..0] == [];
      assert DigitsOnly(u, "+") == [];
      DigitsOnlyJoin(u, "+", rest);
      DigitsOnlyJoin(u, "+", DigitsOnly(u, rest));
      DigitsOnlyTwice(u, rest);
    } else {
      DigitsOnlyTwice(u, text);
      if DigitsOnly(u, text) != "" {
        AllKept(u, text, 0);
      }
    }
  }

  lemma {:induction false} AllKept(u: Runes, s: string, i: nat)
    requires i < |DigitsOnly(u, s)|
    ensures u.isDigit(DigitsOnly(u, s)[i])
  {
    if s != [] && i < |DigitsOnly(u, s[..|s| - 1])| {
      AllKept(u, s[..|s| - 1], i);
    }
  }

  /** Exactly which inputs become a given Russian mobile number: all noise but the digits is ignored. */
  lemma MobileInputs(u: Runes, input: string, ten: string)
    requires Standard(u) && |ten| == 10 && ten[0] == '9' && Digits(ten)
    ensures var text := Trim(u, input);
      var d := DigitsOnly(u, text);
      Normalize(u, input) == Phone("+7" + ten) <==>
        d == "7" + ten || (text != "" && text[0] != '+' && (d == ten || d == "8" + ten))
  {
    var text := Trim(u, input);
    if text != "" {
      DigitsDecide(u, text);
      var d := DigitsOnly(u, text);
      var n := if text[0] == '+' then d else National(d);
      assert "+" + n == "+7" + ten <==> n == "7" + ten by {
        assert ("+" + n)[1..] == n;
        assert ("+7" + ten)[1..] == "7" + ten;
      }
      hide DigitsOnly, StripNoise, Trim;
      NationalExactly(d, ten);
      MobileIsValid(ten);
    } else {
      assert DigitsOnly(u, "") == "";
    }
  }

  lemma NationalExactly(d: string, ten: string)
    requires |ten| == 10 && ten[0] == '9'
    ensures National(d) == "7" + ten <==> d == "7" + ten || d == ten || d == "8" + ten
  {
    assert ("7" + ten)[1..] == ten && ("8" + ten)[1..] == ten;
    if |d| == 11 {
      assert d == [d[0]] + d[1..];
    }
    if |d| == 10 {
      assert ("7" + d)[1..] == d;
    }
    if |d| == 11 {
      assert ("7" + d[1..])[1..] == d[1..];
    }
  }

  lemma MobileIsValid(ten: string)
    requires |ten| == 10 && Digits(ten)
    ensures ValidE164("+7" + ten)
  {
    var s := "+7" + ten;
    forall i | 0 <= i < |s[1..]| ensures Digit(s[1..][i]) {
      assert i > 0 ==> s[1..][i] == ten[i - 1];
    }
  }

  /** An input is refused exactly unless it is one of the forms of a Russian mobile number. */
  lemma RefusedExactly(u: Runes, input: string)
    requires Standard(u)
    ensures Refused(u, input) <==> !(Normalize(u, input).Phone? && Mobile(Normalize(u, input).e164))
  {
    hide RuMobile, Mobile;
    if Normalize(u, input).Phone? {
      MobileExactly(u, Normalize(u, input).e164);
    }
  }

  /** Digits alone: eleven from 8 and ten from 9 gain the country code, all else stays. */
  lemma NationalForms(d: string)
    ensures |d| == 11 && d[0] == '8' ==> National(d) == "7" + d[1..]
    ensures |d| == 10 && d[0] == '9' ==> National(d) == "7" + d
    ensures !(|d| == 11 && d[0] == '8') && !(|d| == 10 && d[0] == '9') ==> National(d) == d
  {
  }

  /** A number with a plus has eight to fifteen digits, the first not zero, or is none. */
  lemma E164Bounds(u: Runes, s: string)
    requires Standard(u) && Digits(s) && s != ""
    ensures Normalize(u, "+" + s) == if 8 <= |s| <= 15 && s[0] != '0' then Phone("+" + s) else Bad
  {
    DigitStays(u, s[|s| - 1]);
    DigitStays(u, '+');
    NothingToTrim(u, "+" + s);
    assert ("+" + s)[1..] == s;
    DigitsKept(u, s);
    PlusDropped(u, s);
  }

  /** A callback belongs to a stored number exactly if it names no phone, or one with the same last ten digits. */
  lemma CallbackExactly(p: string, callback: string)
    requires Mobile(p)
    ensures CallbackMatches(p[1..], callback) <==>
      var d := CanonicalDigits(callback); callback == "" || (|d| >= 10 && d[|d| - 10..] == p[2..])
  {
    AsciiDigitsKept(p[1..]);
    TailOfMobile(p);
  }
}
