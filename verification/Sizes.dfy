/**
  The two parsers of byte sizes, written separately for `run` and for `sandbox`: each is exact for its own language,
  and the two agree on the language they share.
 */
module Sizes {
  import opened Syntax

  const MAX: nat := 0xFFFF_FFFF_FFFF_FFFF
  const KIB: nat := 1024
  const MIB: nat := 1024 * 1024
  const GIB: nat := 1024 * 1024 * 1024

  predicate IsDigit(c: char) {
    '0' <= c <= '9'
  }

  predicate AllDigits(s: string) {
    forall i :: 0 <= i < |s| ==> IsDigit(s[i])
  }

  function ValueOf(s: string): nat
    requires AllDigits(s)
  {
    if s == "" then 0 else 10 * ValueOf(s[..|s| - 1]) + (s[|s| - 1] - '0') as nat
  }

  // ---------- whole numbers ----------

  function AfterSpaces(s: string): string {
    if s != "" && IsSpace(s[0]) then AfterSpaces(s[1..]) else s
  }

  /** A sign and digits; a minus wraps around. */
  function Signed(t: string): Option<nat> {
    var digits := if t != "" && (t[0] == '+' || t[0] == '-') then t[1..] else t;
    if digits == "" || !AllDigits(digits) || ValueOf(digits) > MAX then None
    else if t[0] == '-' && ValueOf(digits) > 0 then Some(MAX + 1 - ValueOf(digits))
    else Some(ValueOf(digits))
  }

  /** The number `std::stoull` reads when it consumes all of `s`. */
  function Numeral(s: string): Option<nat> {
    Signed(AfterSpaces(s))
  }

  /** Both parsers' reading of an unsigned number. */
  function Unsigned(s: string, allowZero: bool): Option<nat> {
    if s == "" || s[0] == '-' then None
    else if Numeral(s) == Some(0) && !allowZero then None
    else Numeral(s)
  }

  lemma {:induction false} DigitsRead(s: string)
    requires s != "" && AllDigits(s)
    ensures Unsigned(s, true) == if ValueOf(s) <= MAX then Some(ValueOf(s)) else None
  {
    assert AfterSpaces(s) == s by { assert IsDigit(s[0]); }
  }

  lemma {:induction false} NumeralEnds(s: string)
    requires Numeral(s).Some?
    ensures s != "" && IsDigit(s[|s| - 1])
  {
    SpacesLast(s);
  }

  lemma {:induction false} SpacesLast(s: string)
    ensures AfterSpaces(s) != "" ==> s != "" && AfterSpaces(s)[|AfterSpaces(s)| - 1] == s[|s| - 1]
  {
    if s != "" && IsSpace(s[0]) { SpacesLast(s[1..]); }
  }

  // ---------- the language of `run` ----------

  function Upper(s: string): (r: string)
    ensures |r| == |s|
  {
    seq(|s|, i requires 0 <= i < |s| => UpperChar(s[i]))
  }

  function UpperChar(c: char): char {
    if 'a' <= c <= 'z' then c - 'a' + 'A' else c
  }

  /** Bytes per unit of an upper-case suffix; 0 for an unknown one. */
  function Unit(s: string): nat {
    if s == "" || s == "B" then 1
    else if s == "K" || s == "KB" || s == "KIB" then KIB
    else if s == "M" || s == "MB" || s == "MIB" then MIB
    else if s == "G" || s == "GB" || s == "GIB" then GIB
    else 0
  }

  /** The first `d` characters are digits, the rest a known unit in any case, and together they mean `v`. */
  predicate RunSplit(text: string, d: nat, v: nat) {
    && 0 < d <= |text|
    && AllDigits(text[..d])
    && Unit(Upper(text[d..])) > 0
    && v == ValueOf(text[..d]) * Unit(Upper(text[d..]))
  }

  ghost predicate RunDenotes(text: string, v: nat) {
    exists d :: RunSplit(text, d, v)
  }

  lemma {:induction false} UnitStart(s: string)
    requires Unit(Upper(s)) > 0 && s != ""
    ensures !IsDigit(s[0]) && !IsDigit(Upper(s)[0])
  {
  }

  /** The digits end where the first character that is not one stands. */
  lemma {:induction false} RunSplitUnique(text: string, d: nat, v: nat, k: nat)
    requires RunSplit(text, d, v)
    requires k <= |text| && AllDigits(text[..k]) && (k < |text| ==> !IsDigit(text[k]))
    ensures d == k
  {
    assert d < k ==> IsDigit(text[..k][d]);
    if d < k { UnitStart(text[d..]); }
  }

  method UpperCase(s: string) returns (r: string)
    ensures r == Upper(s)
  {
    r := s;
    for i := 0 to |s|
      invariant |r| == |s|
      invariant forall k :: 0 <= k < i ==> r[k] == UpperChar(s[k])
      invariant forall k :: i <= k < |s| ==> r[k] == s[k]
    {
      if 'a' <= r[i] <= 'z' {
        r := r[i := r[i] - 'a' + 'A'];
      }
    }
  }

  /** The guard that divides is the guard that would multiply without wrapping around. */
  lemma {:induction false} GuardExact(value: nat, multiplier: nat, max: nat)
    requires multiplier > 0
    ensures value > max / multiplier <==> value * multiplier > max
  {
    var q := max / multiplier;
    assert q * multiplier <= max < (q + 1) * multiplier;
    if value <= q {
      assert value * multiplier <= q * multiplier;
    } else {
      assert (q + 1) * multiplier <= value * multiplier;
    }
  }

  method ParseRunSize(text: string) returns (r: Option<nat>)
    ensures r.Some? ==> r.value <= MAX && RunDenotes(text, r.value)
    ensures r.None? ==> forall v: nat :: v <= MAX ==> !RunDenotes(text, v)
  {
    hide Unit, Upper, Unsigned, ValueOf;
    if text == "" || text[0] == '-' {
      assert text != "" ==> !AllDigits(text[..1]);
      return None;
    }
    var split := 0;
    while split < |text| && IsDigit(text[split])
      invariant split <= |text| && AllDigits(text[..split])
    {
      split := split + 1;
    }
    forall v: nat
      ensures RunDenotes(text, v) <==>
              split > 0 && Unit(Upper(text[split..])) > 0 && v == ValueOf(text[..split]) * Unit(Upper(text[split..]))
    {
      RunValue(text, split, v);
    }
    if split == 0 {
      return None;
    }
    DigitsRead(text[..split]);
    var value := Unsigned(text[..split], true);
    if value.None? {
      ghost var unit := Unit(Upper(text[split..]));
      assert unit > 0 ==> ValueOf(text[..split]) * unit > MAX by {
        if unit > 0 { NotLess(ValueOf(text[..split]), unit); }
      }
      return None;
    }
    var suffix := UpperCase(text[split..]);
    var multiplier := Unit(suffix);
    if multiplier == 0 {
      return None;
    }
    GuardExact(value.value, multiplier, MAX);
    if value.value > MAX / multiplier {
      return None;
    }
    r := Some(value.value * multiplier);
  }

  /** What a text means to `run` is decided by the split after its leading digits. */
  lemma {:induction false} RunValue(text: string, split: nat, v: nat)
    requires split <= |text| && AllDigits(text[..split]) && (split < |text| ==> !IsDigit(text[split]))
    ensures RunDenotes(text, v) <==>
            split > 0 && Unit(Upper(text[split..])) > 0 && v == ValueOf(text[..split]) * Unit(Upper(text[split..]))
  {
    hide Unit, Upper;
    if RunDenotes(text, v) {
      var d: nat :| RunSplit(text, d, v);
      RunSplitUnique(text, d, v, split);
    }
    if split > 0 && Unit(Upper(text[split..])) > 0 && v == ValueOf(text[..split]) * Unit(Upper(text[split..])) {
      assert RunSplit(text, split, v);
    }
  }

  // ---------- the language of `sandbox` ----------

  /** Bytes per unit of a suffix spelled exactly so; 0 for an unknown one. */
  function SandboxUnit(s: string): nat {
    if s == "" || s == "B" || s == "b" then 1
    else if s == "K" || s == "k" || s == "KiB" then KIB
    else if s == "M" || s == "m" || s == "MiB" then MIB
    else if s == "G" || s == "g" || s == "GiB" then GIB
    else 0
  }

  /** The first `d` characters are a number, the rest a known unit, and together they mean `v`. */
  predicate SandboxSplit(text: string, d: nat, v: nat) {
    && 0 < d <= |text|
    && text[0] != '-'
    && Numeral(text[..d]).Some?
    && SandboxUnit(text[d..]) > 0
    && v == Numeral(text[..d]).value * SandboxUnit(text[d..])
  }

  ghost predicate SandboxDenotes(text: string, v: nat) {
    exists d :: SandboxSplit(text, d, v)
  }

  predicate EndsWith(s: string, suffix: string) {
    |suffix| <= |s| && s[|s| - |suffix|..] == suffix
  }

  /** The suffix the chain of tests takes off, and its unit. */
  function Suffix(text: string): (r: (nat, nat))
    ensures r.0 <= |text| && SandboxUnit(text[|text| - r.0..]) == r.1 > 0
  {
    if EndsWith(text, "KiB") then (3, KIB)
    else if EndsWith(text, "MiB") then (3, MIB)
    else if EndsWith(text, "GiB") then (3, GIB)
    else if EndsWith(text, "K") || EndsWith(text, "k") then (1, KIB)
    else if EndsWith(text, "M") || EndsWith(text, "m") then (1, MIB)
    else if EndsWith(text, "G") || EndsWith(text, "g") then (1, GIB)
    else if EndsWith(text, "B") || EndsWith(text, "b") then (1, 1)
    else (0, 1)
  }

  lemma {:induction false} LastOf(s: string, suffix: string)
    requires suffix != ""
    ensures EndsWith(s, suffix) ==> s[|s| - 1] == suffix[|suffix| - 1]
    ensures EndsWith(s, suffix) && |suffix| > 1 ==> s[|s| - 2] == suffix[|suffix| - 2]
  {
  }

  /** None of the three long units ends a text whose last or last but one character is a digit. */
  lemma {:induction false} NoLongUnit(text: string)
    requires text != "" && (IsDigit(text[|text| - 1]) || (|text| > 1 && IsDigit(text[|text| - 2])))
    ensures !EndsWith(text, "KiB") && !EndsWith(text, "MiB") && !EndsWith(text, "GiB")
  {
    hide EndsWith;
    LastOf(text, "KiB");
    LastOf(text, "MiB");
    LastOf(text, "GiB");
  }

  lemma {:induction false} NoUnit(text: string)
    requires text != "" && IsDigit(text[|text| - 1])
    ensures Suffix(text).0 == 0
  {
    hide EndsWith, SandboxUnit;
    NoLongUnit(text);
    LastOf(text, "K");
    LastOf(text, "k");
    LastOf(text, "M");
    LastOf(text, "m");
    LastOf(text, "G");
    LastOf(text, "g");
    LastOf(text, "B");
    LastOf(text, "b");
  }

  lemma {:induction false} SuffixFound(text: string, d: nat)
    requires 0 < d <= |text| && IsDigit(text[d - 1]) && SandboxUnit(text[d..]) > 0
    ensures Suffix(text).0 == |text| - d
  {
    hide EndsWith;
    var unit := text[d..];
    assert EndsWith(text, unit) by { UnitEnds(text, d); }
    if |unit| == 0 {
      NoUnit(text);
    } else if |unit| == 1 {
      NoLongUnit(text);
    }
  }

  lemma {:induction false} UnitEnds(text: string, d: nat)
    requires d <= |text|
    ensures EndsWith(text, text[d..])
  {
  }

  lemma {:induction false} SandboxSplitUnique(text: string, d: nat, v: nat)
    requires SandboxSplit(text, d, v)
    ensures d == |text| - Suffix(text).0
  {
    hide Numeral, SandboxUnit, Suffix;
    NumeralEnds(text[..d]);
    SuffixFound(text, d);
  }

  /** What a text means to the sandbox is decided by the one way to take a suffix off. */
  lemma {:induction false} SandboxValue(text: string, v: nat)
    requires text != "" && text[0] != '-'
    ensures var (cut, unit) := Suffix(text);
            var number := Unsigned(text[..|text| - cut], true);
            SandboxDenotes(text, v) <==> number.Some? && v == number.value * unit
  {
    hide Numeral, SandboxUnit;
    var (cut, unit) := Suffix(text);
    var d := |text| - cut;
    NoNumber();
    if SandboxDenotes(text, v) {
      var e: nat :| SandboxSplit(text, e, v);
      SandboxSplitUnique(text, e, v);
    }
    if Unsigned(text[..d], true).Some? && v == Unsigned(text[..d], true).value * unit {
      assert SandboxSplit(text, d, v);
    }
  }

  lemma {:induction false} NoNumber()
    ensures Numeral("") == None
  {
  }

  method ParseSandboxSize(text: string) returns (r: Option<nat>)
    ensures r.Some? ==> r.value <= MAX && SandboxDenotes(text, r.value)
    ensures r.None? ==> forall v: nat :: v <= MAX ==> !SandboxDenotes(text, v)
  {
    hide Unsigned, Suffix, SandboxUnit, Numeral;
    if text == "" || text[0] == '-' {
      return None;
    }
    forall v: nat
      ensures var (cut, unit) := Suffix(text);
              var number := Unsigned(text[..|text| - cut], true);
              SandboxDenotes(text, v) <==> number.Some? && v == number.value * unit
    {
      SandboxValue(text, v);
    }
    var (cut, multiplier) := Suffix(text);
    var base := Unsigned(text[..|text| - cut], true);
    if base.None? {
      return None;
    }
    GuardExact(base.value, multiplier, MAX);
    if base.value > MAX / multiplier {
      return None;
    }
    r := Some(base.value * multiplier);
  }

  // ---------- where the two agree ----------

  function Digits(text: string): (n: nat)
    ensures n <= |text| && AllDigits(text[..n]) && (n < |text| ==> !IsDigit(text[n]))
  {
    if text != "" && IsDigit(text[0]) then 1 + Digits(text[1..]) else 0
  }

  lemma {:induction false} UnitsAgree(s: string)
    requires SandboxUnit(s) > 0
    ensures Unit(Upper(s)) == SandboxUnit(s)
  {
    if |s| == 1 {
      assert Upper(s) == [UpperChar(s[0])];
    } else if |s| == 3 {
      assert Upper(s) == [UpperChar(s[0]), UpperChar(s[1]), UpperChar(s[2])];
    } else {
      assert Upper(s) == "";
    }
  }

  /** A text that starts with a digit means the same to both, except that `sandbox` knows fewer spellings of units. */
  lemma {:induction false} SizesAgree(text: string, v: nat)
    requires text != "" && IsDigit(text[0]) && v <= MAX
    ensures SandboxDenotes(text, v) <==> RunDenotes(text, v) && SandboxUnit(text[Digits(text)..]) > 0
  {
    if SandboxDenotes(text, v) {
      var d: nat :| SandboxSplit(text, d, v);
      SandboxImpliesRun(text, d, v);
    }
    if RunDenotes(text, v) && SandboxUnit(text[Digits(text)..]) > 0 {
      var d: nat :| RunSplit(text, d, v);
      RunSplitUnique(text, d, v, Digits(text));
      RunImpliesSandbox(text, d, v);
    }
  }

  lemma {:induction false} SandboxImpliesRun(text: string, d: nat, v: nat)
    requires text != "" && IsDigit(text[0]) && SandboxSplit(text, d, v)
    ensures RunSplit(text, d, v) && d == Digits(text)
  {
    hide SandboxUnit, Unit, Upper;
    assert AfterSpaces(text[..d]) == text[..d];
    UnitsAgree(text[d..]);
    RunSplitUnique(text, d, v, Digits(text));
  }

  lemma {:induction false} NotLess(value: nat, unit: nat)
    requires unit > 0
    ensures value <= value * unit
  {
  }

  lemma {:induction false} RunImpliesSandbox(text: string, d: nat, v: nat)
    requires RunSplit(text, d, v) && SandboxUnit(text[d..]) > 0 && v <= MAX
    ensures SandboxSplit(text, d, v)
  {
    hide SandboxUnit, Unit, Upper;
    var digits := text[..d];
    assert IsDigit(digits[0]);
    assert AfterSpaces(digits) == digits;
    UnitsAgree(text[d..]);
    NotLess(ValueOf(digits), SandboxUnit(text[d..]));
  }

  /** `run` refuses whatever does not start with a digit. */
  lemma {:induction false} RunNeedsDigit(text: string, v: nat)
    requires RunDenotes(text, v)
    ensures text != "" && IsDigit(text[0])
  {
    var d: nat :| RunSplit(text, d, v);
    assert IsDigit(text[..d][0]);
  }

  predicate AllSpaces(s: string) {
    forall i :: 0 <= i < |s| ==> IsSpace(s[i])
  }

  lemma {:induction false} SpacesSkipped(blanks: string, rest: string)
    requires AllSpaces(blanks) && rest != "" && !IsSpace(rest[0])
    ensures AfterSpaces(blanks + rest) == rest
  {
    if blanks == "" {
      assert blanks + rest == rest;
    } else {
      assert (blanks + rest)[1..] == blanks[1..] + rest;
      SpacesSkipped(blanks[1..], rest);
    }
  }

  lemma {:induction false} PlusIgnored(u: string)
    requires u != "" && IsDigit(u[0])
    ensures Signed("+" + u) == Signed(u)
  {
    assert ("+" + u)[1..] == u;
  }

  lemma {:induction false} LeadSkipped(blanks: string, plus: bool, u: string)
    requires AllSpaces(blanks) && u != "" && IsDigit(u[0])
    ensures Numeral(blanks + (if plus then "+" else "") + u) == Numeral(u)
  {
    hide Signed, AfterSpaces;
    assert AfterSpaces(u) == u by { SpacesSkipped("", u); assert "" + u == u; }
    if plus {
      assert blanks + "+" + u == blanks + ("+" + u);
      SpacesSkipped(blanks, "+" + u);
      PlusIgnored(u);
    } else {
      assert blanks + "" + u == blanks + u;
      SpacesSkipped(blanks, u);
    }
  }

  /** `sandbox` reads past blanks and a plus in front of a number. */
  lemma {:induction false} SandboxSkipsLead(blanks: string, plus: bool, u: string, v: nat)
    requires AllSpaces(blanks) && u != "" && IsDigit(u[0])
    ensures SandboxDenotes(blanks + (if plus then "+" else "") + u, v) <==> SandboxDenotes(u, v)
  {
    hide SandboxUnit, Numeral;
    var lead := blanks + if plus then "+" else "";
    var text := lead + u;
    assert text == blanks + (if plus then "+" else "") + u;
    if SandboxDenotes(u, v) {
      var d: nat :| SandboxSplit(u, d, v);
      assert text[..|lead| + d] == blanks + (if plus then "+" else "") + u[..d];
      assert text[|lead| + d..] == u[d..];
      LeadSkipped(blanks, plus, u[..d]);
      assert SandboxSplit(text, |lead| + d, v);
    }
    if SandboxDenotes(text, v) {
      var d: nat :| SandboxSplit(text, d, v);
      NumeralEnds(text[..d]);
      assert IsDigit(text[d - 1]);
      var e := d - |lead|;
      assert text[..d] == blanks + (if plus then "+" else "") + u[..e];
      assert text[d..] == u[e..];
      LeadSkipped(blanks, plus, u[..e]);
      assert SandboxSplit(u, e, v);
    }
  }

  // ---------- what the sandbox makes of signs and blanks ----------

  /** Unsigned negation of a 64-bit number. */
  function Negated(n: nat): nat
    requires n <= MAX
  {
    if n == 0 then 0 else MAX + 1 - n
  }

  /** After a minus: digits that fit 64 bits, negated, and a unit. */
  predicate MinusSplit(u: string, d: nat, v: nat) {
    && 0 < d <= |u|
    && AllDigits(u[..d]) && ValueOf(u[..d]) <= MAX
    && SandboxUnit(u[d..]) > 0
    && v == Negated(ValueOf(u[..d])) * SandboxUnit(u[d..])
  }

  ghost predicate MinusDenotes(u: string, v: nat) {
    exists d :: MinusSplit(u, d, v)
  }

  lemma {:induction false} MinusRead(blanks: string, digits: string)
    requires AllSpaces(blanks)
    ensures Numeral(blanks + "-" + digits) ==
            if digits != "" && AllDigits(digits) && ValueOf(digits) <= MAX then Some(Negated(ValueOf(digits))) else None
  {
    var signed := "-" + digits;
    assert blanks + "-" + digits == blanks + signed && signed[1..] == digits;
    SpacesSkipped(blanks, signed);
  }

  /**
    The test for a minus sees only the first character: behind a blank, and only there, a minus is read, and the
    number after it is negated within 64 bits before it is scaled.
   */
  lemma {:induction false} MinusExact(blanks: string, u: string, v: nat)
    requires AllSpaces(blanks)
    ensures SandboxDenotes(blanks + "-" + u, v) <==> blanks != "" && MinusDenotes(u, v)
  {
    hide SandboxUnit, Numeral, ValueOf;
    var text, lead := blanks + "-" + u, |blanks| + 1;
    if SandboxDenotes(text, v) {
      var d: nat :| SandboxSplit(text, d, v);
      NumeralEnds(text[..d]);
      assert IsDigit(text[d - 1]);
      assert text[..d] == blanks + "-" + u[..d - lead] && text[d..] == u[d - lead..];
      MinusRead(blanks, u[..d - lead]);
      assert MinusSplit(u, d - lead, v);
    }
    if blanks != "" && MinusDenotes(u, v) {
      var d: nat :| MinusSplit(u, d, v);
      assert text[..lead + d] == blanks + "-" + u[..d] && text[lead + d..] == u[d..];
      MinusRead(blanks, u[..d]);
      assert IsSpace(text[0]);
      assert SandboxSplit(text, lead + d, v);
    }
  }

  /** `text` is blanks, a sign or none, and something that starts with a digit. */
  predicate Signs(blanks: string, sign: string, u: string) {
    AllSpaces(blanks) && sign in ["", "+", "-"] && u != "" && IsDigit(u[0])
  }

  lemma {:induction false} SignTaken(t: string) returns (sign: string, digits: string)
    requires Signed(t).Some?
    ensures t == sign + digits && sign in ["", "+", "-"] && digits != "" && IsDigit(digits[0])
  {
    sign := if t[0] == '+' || t[0] == '-' then [t[0]] else "";
    digits := t[|sign|..];
  }

  /** Whatever the sandbox accepts is of that form. */
  lemma {:induction false} SandboxForm(text: string, v: nat) returns (blanks: string, sign: string, u: string)
    requires SandboxDenotes(text, v)
    ensures text == blanks + sign + u && Signs(blanks, sign, u)
  {
    hide Signed, AfterSpaces, SandboxUnit;
    var d: nat :| SandboxSplit(text, d, v);
    var rest, digits;
    blanks, rest := SpacesTaken(text[..d]);
    sign, digits := SignTaken(rest);
    u := digits + text[d..];
    assert text == text[..d] + text[d..];
    assert u[0] == digits[0];
  }

  lemma {:induction false} SpacesTaken(s: string) returns (blanks: string, rest: string)
    ensures s == blanks + rest && AllSpaces(blanks) && rest == AfterSpaces(s)
  {
    if s != "" && IsSpace(s[0]) {
      blanks, rest := SpacesTaken(s[1..]);
      blanks := [s[0]] + blanks;
    } else {
      blanks, rest := "", s;
    }
  }

  /**
    So a text means to the sandbox the number written in it, times its unit, exactly when no minus stands behind the
    blanks; with one it means the negated number, and without blanks before the minus nothing at all.
   */
  lemma {:induction false} SandboxExact(blanks: string, sign: string, u: string, v: nat)
    requires Signs(blanks, sign, u) && v <= MAX
    ensures SandboxDenotes(blanks + sign + u, v) <==>
            if sign == "-" then blanks != "" && MinusDenotes(u, v)
            else RunDenotes(u, v) && SandboxUnit(u[Digits(u)..]) > 0
  {
    if sign == "-" {
      MinusExact(blanks, u, v);
    } else {
      SandboxSkipsLead(blanks, sign == "+", u, v);
      SizesAgree(u, v);
    }
  }

  // ---------- numbers and units, said apart from the parsers ----------

  function Pow2(n: nat): nat {
    if n == 0 then 1 else 2 * Pow2(n - 1)
  }

  lemma {:induction false} Pow2Tens()
    ensures Pow2(10) == 1024 && Pow2(20) == 1024 * 1024 && Pow2(30) == 1024 * 1024 * 1024
    ensures Pow2(64) == MAX + 1
  {
    assert Pow2(5) == 32;
    assert Pow2(10) == 1024;
    PowersAdd(10, 10);
    PowersAdd(10, 20);
    PowersAdd(2, 2);
    PowersAdd(4, 30);
    PowersAdd(34, 30);
  }

  lemma {:induction false} PowersAdd(a: nat, b: nat)
    ensures Pow2(a + b) == Pow2(a) * Pow2(b)
  {
    if a > 0 {
      PowersAdd(a - 1, b);
    }
  }

  /** What each unit stands for: nothing or B one byte, K, M and G 2 to the power of 10, 20 and 30. */
  lemma {:induction false} UnitsMean(s: string)
    ensures Unit(s) > 0 <==> s in ["", "B", "K", "KB", "KIB", "M", "MB", "MIB", "G", "GB", "GIB"]
    ensures Unit(s) > 0 ==>
              Unit(s) == if s == "" || s == "B" then 1
                         else Pow2(if s[0] == 'K' then 10 else if s[0] == 'M' then 20 else 30)
    ensures SandboxUnit(s) > 0 <==> s in ["", "B", "b", "K", "k", "KiB", "M", "m", "MiB", "G", "g", "GiB"]
  {
    hide Pow2;
    Pow2Tens();
  }

  function Decimal(n: nat): string {
    if n < 10 then [DigitChar(n)] else Decimal(n / 10) + [DigitChar(n % 10)]
  }

  function DigitChar(d: nat): char
    requires d < 10
  {
    ['0', '1', '2', '3', '4', '5', '6', '7', '8', '9'][d]
  }

  lemma {:induction false} DigitValue(d: nat)
    requires d < 10
    ensures IsDigit(DigitChar(d)) && (DigitChar(d) - '0') as nat == d
  {
  }

  /** The value of a string of digits is the number whose decimal notation it is. */
  lemma {:induction false} DecimalValue(n: nat)
    ensures AllDigits(Decimal(n)) && ValueOf(Decimal(n)) == n
  {
    var s := Decimal(n);
    DigitValue(n % 10);
    if n < 10 {
      assert s[..|s| - 1] == "";
    } else {
      DecimalValue(n / 10);
      assert s[..|s| - 1] == Decimal(n / 10);
    }
  }

  /** Leading zeros do not change it, and apart from them no two strings have the same value. */
  lemma {:induction false} LeadingZero(s: string)
    requires AllDigits(s)
    ensures AllDigits("0" + s) && ValueOf("0" + s) == ValueOf(s)
  {
    var zero := "0" + s;
    if s == "" {
      assert zero[..0] == "";
    } else {
      assert AllDigits(s[..|s| - 1]);
      LeadingZero(s[..|s| - 1]);
      assert zero[..|zero| - 1] == "0" + s[..|s| - 1];
    }
  }

  lemma {:induction false} DecimalUnique(s: string)
    requires s != "" && AllDigits(s) && (s[0] != '0' || |s| == 1)
    ensures s == Decimal(ValueOf(s)) && (|s| > 1 ==> ValueOf(s) >= 10)
  {
    var init, d := s[..|s| - 1], (s[|s| - 1] - '0') as nat;
    assert IsDigit(s[|s| - 1]) && DigitChar(d) == s[|s| - 1];
    if init == "" {
      assert s == [s[0]];
    } else {
      DecimalUnique(init);
      assert IsDigit(s[0]);
      if |init| == 1 {
        assert init[..0] == "" && ValueOf(init) == (s[0] - '0') as nat;
      }
      assert ValueOf(s) / 10 == ValueOf(init) && ValueOf(s) % 10 == d;
      assert s == init + [s[|s| - 1]];
    }
  }
}
