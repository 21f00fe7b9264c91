/**
 * The client's UUID generator: the platform's `crypto.randomUUID()` when
 * there is one, otherwise the version-4 template of RFC 4122 section 4.4
 * filled from random nibbles. The randomness is a parameter: one nibble per
 * 'x' or 'y' of the template, in order.
 */
module Uuid {
  import opened Wrappers
  import opened Encoding

  type nibble = n: nat | n < 16

  const Template: string := "xxxxxxxx-xxxx-4xxx-yxxx-xxxxxxxxxxxx"

  /** How many random nibbles filling `t` consumes. */
  function Slots(t: string): nat {
    if t == [] then 0 else (if t[0] == 'x' || t[0] == 'y' then 1 else 0) + Slots(t[1..])
  }

  /** The variant digit of RFC 4122 section 4.1.1: `r & 0x3 | 0x8`, one of 8, 9, a, b. */
  function VariantNibble(r: nibble): (v: nibble)
    ensures 8 <= v <= 11 && v % 4 == r % 4
  {
    8 + r % 4
  }

  /**
   * `template.replace(/[xy]/g, ...)`: every 'x' becomes the lowercase hex digit
   * of the next nibble, every 'y' the digit of its variant, and every other
   * character stays.
   */
  function Fill(t: string, ns: seq<nibble>): (r: string)
    requires |ns| == Slots(t)
    ensures |r| == |t|
    ensures forall i :: 0 <= i < |t| && t[i] != 'x' && t[i] != 'y' ==> r[i] == t[i]
    ensures forall i :: 0 <= i < |t| && t[i] == 'x' ==> IsLowerHexDigit(r[i])
    ensures forall i :: 0 <= i < |t| && t[i] == 'y' ==> r[i] in "89ab"
    decreases |t|
  {
    if t == [] then []
    else if t[0] == 'x' then
      HexValueOfDigit(ns[0]);
      [HexDigitLower(ns[0])] + Fill(t[1..], ns[1..])
    else if t[0] == 'y' then
      var v := VariantNibble(ns[0]);
      [HexDigitLower(v)] + Fill(t[1..], ns[1..])
    else [t[0]] + Fill(t[1..], ns)
  }

  /** `generateUUID`: the platform's value when it has one, else the filled template. */
  function GenerateUuid(native: Option<string>, ns: seq<nibble>): (r: string)
    requires |ns| == 31
    ensures native.Some? ==> r == native.value
    ensures native.None? ==> IsUuidV4(r)
  {
    TemplateSlots();
    if native.Some? then native.value
    else
      TemplateFillsUuidV4(ns);
      Fill(Template, ns)
  }

  lemma TemplateFillsUuidV4(ns: seq<nibble>)
    requires |ns| == 31
    ensures Slots(Template) == 31 && IsUuidV4(Fill(Template, ns))
  {
    TemplateSlots();
    TemplateLayout();
    FilledIsUuidV4(Template, ns);
  }

  lemma {:induction false} SlotsAppend(a: string, b: string)
    ensures Slots(a + b) == Slots(a) + Slots(b)
    decreases |a|
  {
    if a != [] {
      assert (a + b)[0] == a[0];
      assert (a + b)[1..] == a[1..] + b;
      SlotsAppend(a[1..], b);
    } else {
      assert a + b == b;
    }
  }

  lemma {:induction false} SlotsOfX(s: string)
    requires forall i :: 0 <= i < |s| ==> s[i] == 'x'
    ensures Slots(s) == |s|
    decreases |s|
  {
    if s != [] {
      SlotsOfX(s[1..]);
    }
  }

  lemma SlotsOfGroups(a: string, b: string, c: string, d: string, e: string)
    ensures Slots(a + "-" + b + "-" + c + "-" + d + "-" + e)
      == Slots(a) + Slots(b) + Slots(c) + Slots(d) + Slots(e)
  {
    assert Slots("-") == 0;
    SlotsAppend(a, "-");
    SlotsAppend(a + "-", b);
    SlotsAppend(a + "-" + b, "-");
    SlotsAppend(a + "-" + b + "-", c);
    SlotsAppend(a + "-" + b + "-" + c, "-");
    SlotsAppend(a + "-" + b + "-" + c + "-", d);
    SlotsAppend(a + "-" + b + "-" + c + "-" + d, "-");
    SlotsAppend(a + "-" + b + "-" + c + "-" + d + "-", e);
  }

  /** The template has 31 slots: 30 'x' and one 'y'. */
  lemma TemplateSlots()
    ensures Slots(Template) == 31
  {
    TemplateSlotsOf(Template, "xxxxxxxx", "xxxx", "4xxx", "yxxx", "xxxxxxxxxxxx");
  }

  lemma TemplateSlotsOf(t: string, a: string, b: string, c: string, d: string, e: string)
    requires a == "xxxxxxxx" && b == "xxxx" && c == "4xxx" && d == "yxxx" && e == "xxxxxxxxxxxx"
    requires t == a + "-" + b + "-" + c + "-" + d + "-" + e
    ensures Slots(t) == 31
  {
    SlotsOfGroups(a, b, c, d, e);
    SlotsOfX(a);
    SlotsOfX(b);
    SlotsOfX(e);
    SlotsOfLeading(c, '4');
    SlotsOfLeading(d, 'y');
  }

  /** A group of four whose first character is `h` and whose other three are 'x'. */
  lemma SlotsOfLeading(g: string, h: char)
    requires |g| == 4 && g[0] == h && forall i :: 1 <= i < 4 ==> g[i] == 'x'
    ensures Slots(g) == 3 + (if h == 'x' || h == 'y' then 1 else 0)
  {
    SlotsOfX(g[1..]);
  }

  /**
   * The textual form of a random (version 4) UUID, RFC 4122 sections 3 and
   * 4.4: 36 characters, '-' at 8, 13, 18 and 23, the version digit '4' at 14,
   * a variant digit 8, 9, a or b at 19, lowercase hex digits elsewhere.
   */
  predicate IsUuidV4(s: string) {
    |s| == 36
    && (forall i :: 0 <= i < 36 && i in {8, 13, 18, 23} ==> s[i] == '-')
    && s[14] == '4'
    && s[19] in "89ab"
    && (forall i :: 0 <= i < 36 && i !in {8, 13, 14, 18, 19, 23} ==> IsLowerHexDigit(s[i]))
  }

  /** Where the template holds each kind of character. */
  lemma TemplateLayout()
    ensures |Template| == 36
    ensures forall i :: 0 <= i < 36 && i in {8, 13, 18, 23} ==> Template[i] == '-'
    ensures Template[14] == '4' && Template[19] == 'y'
    ensures forall i :: 0 <= i < 36 && i !in {8, 13, 14, 18, 19, 23} ==> Template[i] == 'x'
  {
  }

  /** Any template laid out like the version-4 one fills to a version-4 UUID. */
  lemma FilledIsUuidV4(t: string, ns: seq<nibble>)
    requires |ns| == Slots(t)
    requires |t| == 36
    requires forall i :: 0 <= i < 36 && i in {8, 13, 18, 23} ==> t[i] == '-'
    requires t[14] == '4' && t[19] == 'y'
    requires forall i :: 0 <= i < 36 && i !in {8, 13, 14, 18, 19, 23} ==> t[i] == 'x'
    ensures IsUuidV4(Fill(t, ns))
  {
    var r := Fill(t, ns);
    assert r[14] == '4';
    forall i | 0 <= i < 36 && i !in {8, 13, 14, 18, 19, 23} ensures IsLowerHexDigit(r[i]) {
      assert t[i] == 'x';
    }
  }

  /** The nibbles read back from the slots of a filled template, left to right. */
  function ReadSlots(t: string, r: string): (ns: seq<Option<nat>>)
    requires |r| == |t|
    ensures |ns| == Slots(t)
    decreases |t|
  {
    if t == [] then []
    else if t[0] == 'x' || t[0] == 'y' then [HexValue(r[0])] + ReadSlots(t[1..], r[1..])
    else ReadSlots(t[1..], r[1..])
  }

  /** What a nibble turns into at a slot: itself at an 'x', its variant at the 'y'. */
  function SlotValues(t: string, ns: seq<nibble>): (vs: seq<Option<nat>>)
    requires |ns| == Slots(t)
    ensures |vs| == |ns|
    decreases |t|
  {
    if t == [] then []
    else if t[0] == 'x' then [Some(ns[0] as nat)] + SlotValues(t[1..], ns[1..])
    else if t[0] == 'y' then [Some(VariantNibble(ns[0]) as nat)] + SlotValues(t[1..], ns[1..])
    else SlotValues(t[1..], ns)
  }

  /** Reading the slots back gives every random nibble, the variant slot reduced to its variant. */
  lemma {:induction false} ReadFill(t: string, ns: seq<nibble>)
    requires |ns| == Slots(t)
    ensures ReadSlots(t, Fill(t, ns)) == SlotValues(t, ns)
    decreases |t|
  {
    if t != [] {
      var r := Fill(t, ns);
      if t[0] == 'x' {
        HexValueOfDigit(ns[0]);
        assert r[1..] == Fill(t[1..], ns[1..]);
        ReadFill(t[1..], ns[1..]);
      } else if t[0] == 'y' {
        HexValueOfDigit(VariantNibble(ns[0]));
        assert r[1..] == Fill(t[1..], ns[1..]);
        ReadFill(t[1..], ns[1..]);
      } else {
        assert r[1..] == Fill(t[1..], ns);
        ReadFill(t[1..], ns);
      }
    }
  }
}
