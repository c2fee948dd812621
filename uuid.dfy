/** The identifiers `generateUUID` produces: the template `xxxxxxxx-xxxx-4xxx-yxxx-xxxxxxxxxxxx`
    with every `x` replaced by a lowercase hex digit `r` and the `y` by `(r & 0x3) | 0x8`.
    Where the nibbles come from (the clock, the page-load timer and `Math.random`) is outside
    the model: the nibbles are an input, one per placeholder, in template order. */
module Uuid {
  import opened Serialiser

  const Template: string := "xxxxxxxx-xxxx-4xxx-yxxx-xxxxxxxxxxxx"

  type Nibble = n: int | 0 <= n < 16

  /** The characters the pattern `/[xy]/g` matches. */
  predicate Placeholder(c: char) {
    c == 'x' || c == 'y'
  }

  /** How many characters of `t` the pattern replaces. */
  function Placeholders(t: string): nat {
    if t == [] then 0 else Placeholders(t[..|t| - 1]) + (if Placeholder(t[|t| - 1]) then 1 else 0)
  }

  /** The nibble the callback returns for `y`: the two low bits of `r` with bit 3 set. */
  function VariantNibble(r: Nibble): Nibble {
    ((r as bv8 & 0x3) | 0x8) as int
  }

  /** The digit the callback returns for the placeholder `c` and the nibble `r`. */
  function Replacement(c: char, r: Nibble): char {
    if c == 'x' then HexChar(r) else HexChar(VariantNibble(r))
  }

  /** `t.replace(/[xy]/g, callback)`, where the k-th call of the callback draws `nibbles[k]`. */
  function Fill(t: string, nibbles: seq<Nibble>): (u: string)
    requires |nibbles| == Placeholders(t)
    ensures |u| == |t|
  {
    if t == [] then []
    else
      var c := t[|t| - 1];
      if Placeholder(c) then Fill(t[..|t| - 1], nibbles[..|nibbles| - 1]) + [Replacement(c, nibbles[|nibbles| - 1])]
      else Fill(t[..|t| - 1], nibbles) + [c]
  }

  /** The fixed positions of the template: the four dashes and the version digit. */
  predicate FixedAt(i: int) {
    i == 8 || i == 13 || i == 14 || i == 18 || i == 23
  }

  predicate IsLowerHex(c: char) {
    '0' <= c <= '9' || 'a' <= c <= 'f'
  }

  /** The digits of the variant nibble `10xx`. */
  predicate VariantDigit(c: char) {
    c == '8' || c == '9' || c == 'a' || c == 'b'
  }

  /** The text form of a random (version 4, variant 10xx) UUID, in lowercase hex. */
  predicate IsUuid(u: string) {
    && |u| == 36
    && u[8] == '-' && u[13] == '-' && u[18] == '-' && u[23] == '-'
    && u[14] == '4'
    && VariantDigit(u[19])
    && forall i :: 0 <= i < 36 && !FixedAt(i) ==> IsLowerHex(u[i])
  }

  /** The per-call loop of `replace`: walks the template once, drawing a nibble at each
      placeholder. */
  method GenerateUuid(nibbles: seq<Nibble>) returns (u: string)
    requires |nibbles| == Placeholders(Template)
    ensures u == Fill(Template, nibbles)
    ensures IsUuid(u)
  {
    u := [];
    var used := 0;
    for i := 0 to |Template|
      invariant used == Placeholders(Template[..i]) <= |nibbles|
      invariant u == Fill(Template[..i], nibbles[..used])
    {
      var c := Template[i];
      assert Template[..i + 1][..i] == Template[..i];
      PlaceholdersMono(Template, i + 1);
      if Placeholder(c) {
        assert nibbles[..used + 1][..used] == nibbles[..used];
        u := u + [Replacement(c, nibbles[used])];
        used := used + 1;
      } else {
        u := u + [c];
      }
    }
    assert Template[..|Template|] == Template;
    assert nibbles[..used] == nibbles;
    FillIsUuid(nibbles);
  }

  lemma {:induction false} PlaceholdersMono(t: string, k: nat)
    requires k <= |t|
    ensures Placeholders(t[..k]) <= Placeholders(t)
    decreases |t|
  {
    if k < |t| {
      assert t[..|t| - 1][..k] == t[..k];
      PlaceholdersMono(t[..|t| - 1], k);
    } else {
      assert t[..k] == t;
    }
  }

  /** Which template positions are placeholders. */
  lemma TemplateShape()
    ensures |Template| == 36
    ensures forall i :: 0 <= i < 36 ==> (Placeholder(Template[i]) <==> !FixedAt(i))
    ensures forall i :: 0 <= i < 36 ==> (Template[i] == 'y' <==> i == 19)
    ensures Template[8] == '-' && Template[13] == '-' && Template[18] == '-' && Template[23] == '-'
    ensures Template[14] == '4'
  {
  }

  function FixedBelow(k: nat): nat {
    (if k > 8 then 1 else 0) + (if k > 13 then 1 else 0) + (if k > 14 then 1 else 0)
      + (if k > 18 then 1 else 0) + (if k > 23 then 1 else 0)
  }

  lemma {:induction false} TemplatePrefixCount(k: nat)
    requires k <= 36
    ensures Placeholders(Template[..k]) == k - FixedBelow(k)
  {
    if k > 0 {
      TemplateShape();
      TemplatePrefixCount(k - 1);
      assert Template[..k][..k - 1] == Template[..k - 1];
      assert Template[..k][k - 1] == Template[k - 1];
      assert Placeholder(Template[k - 1]) <==> !FixedAt(k - 1);
    }
  }

  /** The template has 31 placeholders, so one identifier consumes 31 nibbles. */
  lemma TemplateCount()
    ensures Placeholders(Template) == 31
  {
    TemplatePrefixCount(36);
    assert Template[..36] == Template;
  }

  /** Character `i` of `Fill(t, nibbles)`: copied from the template, or the replacement drawn
      with the nibble whose index is the number of placeholders before `i`. */
  lemma {:induction false} FillAt(t: string, nibbles: seq<Nibble>, i: nat)
    requires |nibbles| == Placeholders(t) && i < |t|
    ensures Placeholders(t[..i]) <= |nibbles|
    ensures !Placeholder(t[i]) ==> Fill(t, nibbles)[i] == t[i]
    ensures Placeholder(t[i]) ==>
      Placeholders(t[..i]) < |nibbles| && Fill(t, nibbles)[i] == Replacement(t[i], nibbles[Placeholders(t[..i])])
    decreases |t|
  {
    PlaceholdersMono(t, i);
    var n := |t| - 1;
    if i < n {
      var m := if Placeholder(t[n]) then |nibbles| - 1 else |nibbles|;
      var prefix := nibbles[..m];
      assert Placeholder(t[n]) || prefix == nibbles;
      assert Fill(t, nibbles) == Fill(t[..n], prefix) + [Fill(t, nibbles)[n]];
      assert t[..n][..i] == t[..i];
      assert t[..n][i] == t[i];
      FillAt(t[..n], prefix, i);
      if Placeholder(t[i]) {
        assert prefix[Placeholders(t[..i])] == nibbles[Placeholders(t[..i])];
      }
    } else {
      assert t[..n] == t[..i];
    }
  }

  lemma VariantNibbleValue(r: Nibble)
    ensures VariantNibble(r) == 8 + r % 4
  {
    var b := r as bv8;
    assert b & 0x3 == (r % 4) as bv8 by {
      assert r == 4 * (r / 4) + r % 4;
    }
  }

  /** Every identifier the template yields has the version-4 UUID shape. */
  lemma FillIsUuid(nibbles: seq<Nibble>)
    requires |nibbles| == Placeholders(Template)
    ensures IsUuid(Fill(Template, nibbles))
  {
    TemplateShape();
    var u := Fill(Template, nibbles);
    forall i | 0 <= i < 36
      ensures FixedAt(i) ==> u[i] == Template[i]
      ensures !FixedAt(i) ==> IsLowerHex(u[i])
      ensures i == 19 ==> VariantDigit(u[i])
    {
      FillAt(Template, nibbles, i);
      if Placeholder(Template[i]) {
        VariantNibbleValue(nibbles[Placeholders(Template[..i])]);
      }
    }
  }

  /** The information an identifier keeps of its nibbles: all of an `x` nibble, and the two low
      bits of the `y` nibble. */
  function Masked(t: string, nibbles: seq<Nibble>): (m: seq<Nibble>)
    requires |nibbles| == Placeholders(t)
    ensures |m| == |nibbles|
  {
    if t == [] then []
    else
      var c := t[|t| - 1];
      if c == 'x' then Masked(t[..|t| - 1], nibbles[..|nibbles| - 1]) + [nibbles[|nibbles| - 1]]
      else if c == 'y' then Masked(t[..|t| - 1], nibbles[..|nibbles| - 1]) + [nibbles[|nibbles| - 1] % 4]
      else Masked(t[..|t| - 1], nibbles)
  }

  function LowerHexValue(c: char): Nibble
    requires IsLowerHex(c)
  {
    if c <= '9' then c as int - 48 else c as int - 87
  }

  /** Reads the nibbles back out of an identifier: the digit value at an `x`, and the digit
      value less 8 at the `y`. */
  function Unfill(t: string, u: string): (m: seq<Nibble>)
    requires |u| == |t|
    ensures |m| == Placeholders(t)
  {
    if t == [] then []
    else
      var c := t[|t| - 1];
      var d := u[|u| - 1];
      var rest := Unfill(t[..|t| - 1], u[..|u| - 1]);
      if c == 'x' then rest + [if IsLowerHex(d) then LowerHexValue(d) else 0]
      else if c == 'y' then rest + [if IsLowerHex(d) && LowerHexValue(d) >= 8 then LowerHexValue(d) - 8 else 0]
      else rest
  }

  lemma HexCharLower(d: Nibble)
    ensures IsLowerHex(HexChar(d)) && LowerHexValue(HexChar(d)) == d
  {
  }

  /** Reading an identifier back gives exactly the masked nibbles it was made from. */
  lemma {:induction false} UnfillFill(t: string, nibbles: seq<Nibble>)
    requires |nibbles| == Placeholders(t)
    ensures Unfill(t, Fill(t, nibbles)) == Masked(t, nibbles)
    decreases |t|
  {
    if t != [] {
      var n := |t| - 1;
      var c := t[n];
      var m := if Placeholder(c) then |nibbles| - 1 else |nibbles|;
      var prefix := nibbles[..m];
      var u := Fill(t, nibbles);
      assert Placeholder(c) || prefix == nibbles;
      assert u == Fill(t[..n], prefix) + [u[n]];
      assert u[..n] == Fill(t[..n], prefix);
      UnfillFill(t[..n], prefix);
      if c == 'x' {
        UnfillLast(t, u, nibbles[m]);
      } else if c == 'y' {
        VariantNibbleValue(nibbles[m]);
        UnfillLast(t, u, nibbles[m] % 4);
      } else {
        assert prefix == nibbles;
      }
    }
  }

  /** One step of `Unfill`: a last placeholder whose digit encodes `r`. */
  lemma UnfillLast(t: string, u: string, r: Nibble)
    requires |u| == |t| > 0 && Placeholder(t[|t| - 1])
    requires t[|t| - 1] == 'y' ==> r < 4
    requires u[|u| - 1] == HexChar(if t[|t| - 1] == 'x' then r else r + 8)
    ensures Unfill(t, u) == Unfill(t[..|t| - 1], u[..|u| - 1]) + [r]
  {
    HexCharLower(if t[|t| - 1] == 'x' then r else r + 8);
  }

  /** Only the masked nibbles matter: masking first yields the same identifier. */
  lemma {:induction false} FillMasked(t: string, nibbles: seq<Nibble>)
    requires |nibbles| == Placeholders(t)
    ensures Fill(t, Masked(t, nibbles)) == Fill(t, nibbles)
    decreases |t|
  {
    if t != [] {
      var n := |t| - 1;
      var c := t[n];
      var m := if Placeholder(c) then |nibbles| - 1 else |nibbles|;
      var prefix := nibbles[..m];
      var masked := Masked(t, nibbles);
      if Placeholder(c) {
        assert masked == Masked(t[..n], prefix) + [masked[m]];
        assert masked[..m] == Masked(t[..n], prefix);
      } else {
        assert prefix == nibbles;
        assert masked == Masked(t[..n], prefix);
        assert masked[..m] == masked;
      }
      FillMasked(t[..n], prefix);
      if c == 'y' {
        VariantNibbleValue(nibbles[m]);
        VariantNibbleValue(nibbles[m] % 4);
      }
    }
  }

  /** Two draws give the same identifier exactly when they agree on the masked nibbles. */
  lemma SameUuid(a: seq<Nibble>, b: seq<Nibble>)
    requires |a| == Placeholders(Template) && |b| == Placeholders(Template)
    ensures Fill(Template, a) == Fill(Template, b) <==> Masked(Template, a) == Masked(Template, b)
  {
    UnfillFill(Template, a);
    UnfillFill(Template, b);
    if Masked(Template, a) == Masked(Template, b) {
      FillMasked(Template, a);
      FillMasked(Template, b);
    }
  }
}
