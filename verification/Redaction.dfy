/**
 * Scrubbing known secret values out of a text, one value after the other, longest first, each also
 * in the form it takes inside a JSON string.
 */
module Redaction {

  const MARK := "[redacted]"
  const WORD := "redacted"
  const MIN_REDACTABLE: nat := 4

  ghost predicate OccursAt(v: string, text: string, i: nat) {
    i + |v| <= |text| && text[i..i + |v|] == v
  }

  ghost predicate Occurs(v: string, text: string) {
    exists i: nat :: OccursAt(v, text, i)
  }

  /** `text.split(v).join("[redacted]")`: the leftmost occurrences that do not overlap are replaced. */
  function Replace(text: string, v: string): string
    requires v != ""
    decreases |text|
  {
    if v <= text then MARK + Replace(text[|v|..], v)
    else if text == "" then ""
    else [text[0]] + Replace(text[1..], v)
  }

  function Insert(v: string, sorted: seq<string>): seq<string> {
    if sorted == [] || |v| >= |sorted[0]| then [v] + sorted else [sorted[0]] + Insert(v, sorted[1..])
  }

  /** The values worth redacting, longest first, equal lengths in the given order. */
  function Ordered(values: seq<string>): seq<string> {
    if values == [] then []
    else if |values[0]| < MIN_REDACTABLE then Ordered(values[1..])
    else Insert(values[0], Ordered(values[1..]))
  }

  /** One round of the loop; `enc` is the JSON-escaped form of a value. */
  function Scrub(text: string, v: string, enc: string -> string): string
    requires v != ""
  {
    var plain := Replace(text, v);
    if enc(v) != v && enc(v) != "" then Replace(plain, enc(v)) else plain
  }

  function ScrubAll(text: string, vs: seq<string>, enc: string -> string): string
    requires "" !in vs
    decreases |vs|
  {
    if vs == [] then text else ScrubAll(Scrub(text, vs[0], enc), vs[1..], enc)
  }

  /** `redactSecretText`. */
  function Redacted(text: string, values: seq<string>, enc: string -> string): string {
    OrderedAre(values);
    ScrubAll(text, Ordered(values), enc)
  }

  method RedactSecretText(text: string, values: seq<string>, enc: string -> string) returns (redacted: string)
    ensures redacted == Redacted(text, values, enc)
  {
    OrderedAre(values);
    var vs := Ordered(values);
    redacted := text;
    for i := 0 to |vs|
      invariant ScrubAll(redacted, vs[i..], enc) == ScrubAll(text, vs, enc)
    {
      assert vs[i..][0] == vs[i] && vs[i..][1..] == vs[i + 1..];
      assert vs[i] in vs;
      redacted := Replace(redacted, vs[i]);
      var encoded := enc(vs[i]);
      if encoded != vs[i] && encoded != "" { redacted := Replace(redacted, encoded); }
    }
  }

  lemma {:induction false} InsertIs(v: string, sorted: seq<string>)
    ensures forall x :: x in Insert(v, sorted) <==> x == v || x in sorted
  {
    if sorted != [] && |v| < |sorted[0]| {
      InsertIs(v, sorted[1..]);
      assert sorted == [sorted[0]] + sorted[1..];
    }
  }

  lemma {:induction false} OrderedAre(values: seq<string>)
    ensures forall x :: x in Ordered(values) <==> x in values && |x| >= MIN_REDACTABLE
  {
    if values != [] {
      OrderedAre(values[1..]);
      assert forall x :: x in values <==> x == values[0] || x in values[1..];
      if |values[0]| >= MIN_REDACTABLE { InsertIs(values[0], Ordered(values[1..])); }
    }
  }

  // ---------------------------------------------------- what is kept around

  function Joined(parts: seq<string>, sep: string): string {
    if parts == [] then "" else if |parts| == 1 then parts[0] else parts[0] + sep + Joined(parts[1..], sep)
  }

  lemma JoinedCons(part: string, rest: seq<string>, sep: string)
    requires rest != []
    ensures Joined([part] + rest, sep) == part + sep + Joined(rest, sep)
  {
    assert ([part] + rest)[1..] == rest;
  }

  lemma JoinedLonger(c: char, parts: seq<string>, sep: string)
    requires parts != []
    ensures Joined([[c] + parts[0]] + parts[1..], sep) == [c] + Joined(parts, sep)
  {
    assert ([[c] + parts[0]] + parts[1..])[1..] == parts[1..];
    if |parts| > 1 {
      var rest := Joined(parts[1..], sep);
      assert [c] + parts[0] + sep + rest == [c] + (parts[0] + sep + rest);
    }
  }

  /** `parts` are the text cut at `v`, and joined with the mark they are `replaced`. */
  ghost predicate CutAt(parts: seq<string>, text: string, v: string, replaced: string) {
    && parts != [] && parts[0] <= text
    && Joined(parts, v) == text && Joined(parts, MARK) == replaced
    && forall p :: p in parts ==> !Occurs(v, p)
  }

  lemma CutHere(rest: seq<string>, text: string, v: string, replaced: string)
    requires v != "" && v <= text && CutAt(rest, text[|v|..], v, replaced)
    ensures CutAt([""] + rest, text, v, MARK + replaced)
  {
    hide Occurs, Joined;
    JoinedCons("", rest, v);
    JoinedCons("", rest, MARK);
    assert "" + v + text[|v|..] == text && "" + MARK + replaced == MARK + replaced;
    NotInNothing(v);
  }

  lemma CutLater(rest: seq<string>, text: string, v: string, replaced: string)
    requires v != "" && text != "" && !(v <= text) && CutAt(rest, text[1..], v, replaced)
    ensures CutAt([[text[0]] + rest[0]] + rest[1..], text, v, [text[0]] + replaced)
  {
    hide Occurs, Joined;
    JoinedLonger(text[0], rest, v);
    JoinedLonger(text[0], rest, MARK);
    assert [text[0]] + text[1..] == text;
    NotAtFront(text, v, rest[0]);
  }

  /**
   * Replacing is cutting the text at the value and joining the parts with the mark: outside the value
   * every character stays where it was, and no part holds the value.
   */
  lemma {:induction false} ReplaceKeepsTheRest(text: string, v: string) returns (parts: seq<string>)
    requires v != ""
    ensures CutAt(parts, text, v, Replace(text, v))
    decreases |text|
  {
    if v <= text {
      hide CutAt;
      var rest := ReplaceKeepsTheRest(text[|v|..], v);
      parts := [""] + rest;
      CutHere(rest, text, v, Replace(text[|v|..], v));
    } else if text == "" {
      parts := [""];
      NotInNothing(v);
    } else {
      var rest := ReplaceKeepsTheRest(text[1..], v);
      parts := [[text[0]] + rest[0]] + rest[1..];
      CutLater(rest, text, v, Replace(text[1..], v));
    }
  }

  lemma NotInNothing(v: string)
    requires v != ""
    ensures !Occurs(v, "")
  {
  }

  lemma NotAtFront(text: string, v: string, part: string)
    requires v != "" && text != "" && !(v <= text) && part <= text[1..] && !Occurs(v, part)
    ensures !Occurs(v, [text[0]] + part)
  {
    var longer := [text[0]] + part;
    assert longer <= text;
    forall i: nat | i + |v| <= |longer| ensures !OccursAt(v, longer, i) {
      if i == 0 {
        assert longer[0..|v|] == text[..|v|];
      } else {
        assert longer[i..i + |v|] == part[i - 1..i - 1 + |v|];
        assert !OccursAt(v, part, i - 1);
      }
    }
  }

  // -------------------------------------------------- what the mark can make

  /** `v` laid over the mark, its first character `k` places in, agrees with it wherever both are. */
  ghost predicate Fits(v: string, k: int) {
    && -|v| < k < |MARK|
    && forall i :: 0 <= i < |v| && 0 <= k + i < |MARK| ==> v[i] == MARK[k + i]
  }

  /** Part of `v` can be supplied by a mark. */
  ghost predicate Overlaps(v: string) {
    exists k :: Fits(v, k)
  }

  /** A fit that touches neither bracket of the mark lies inside the word. */
  lemma FitInside(v: string, k: int)
    requires Fits(v, k) && 1 <= k && k + |v| <= 9
    ensures OccursAt(v, WORD, k - 1)
  {
    assert WORD == MARK[1..9];
    forall i | 0 <= i < |v| ensures WORD[k - 1..k - 1 + |v|][i] == v[i] {
      assert MARK[1..9][k - 1 + i] == MARK[k + i];
    }
  }

  lemma FitAtBracket(v: string, k: int)
    requires Fits(v, k) && (k <= 0 || k + |v| > 9)
    ensures '[' in v || ']' in v
  {
    if k <= 0 { assert v[-k] == MARK[0] == '['; }
    else { assert v[9 - k] == MARK[9] == ']'; }
  }

  /** Values without brackets that are not part of the word "redacted" cannot be made by a mark. */
  lemma PlainValuesDoNotOverlap(v: string)
    requires v != "" && '[' !in v && ']' !in v && !Occurs(v, WORD)
    ensures !Overlaps(v)
  {
    if Overlaps(v) {
      var k :| Fits(v, k);
      if 1 <= k && k + |v| <= 9 { FitInside(v, k); } else { FitAtBracket(v, k); }
    }
  }

  /** A mark in front of a text holds no part of an occurrence. */
  lemma BehindMark(w: string, rest: string, i: nat)
    requires w != "" && !Overlaps(w) && OccursAt(w, MARK + rest, i)
    ensures i >= |MARK| && OccursAt(w, rest, i - |MARK|)
  {
    var all := MARK + rest;
    if i < |MARK| {
      forall j | 0 <= j < |w| && 0 <= i + j < |MARK| ensures w[j] == MARK[i + j] {
        assert all[i..i + |w|][j] == all[i + j];
      }
      assert Fits(w, i);
    }
    assert all[i..i + |w|] == rest[i - |MARK|..i - |MARK| + |w|];
  }

  /** The result starts with (the end `w` of) a value only where the text does. */
  lemma {:induction false} PrefixWasThere(text: string, v: string, front: string, w: string)
    requires v != "" && !Overlaps(front + w) && w <= Replace(text, v)
    ensures w <= text
    decreases |text|
  {
    if w != "" {
      if v <= text {
        var k := -|front|;
        forall i | 0 <= i < |front + w| && 0 <= k + i < |MARK| ensures (front + w)[i] == MARK[k + i] {
          assert (front + w)[i] == w[k + i] == Replace(text, v)[k + i];
        }
        assert Fits(front + w, k);
      } else {
        var rest := Replace(text[1..], v);
        assert w[0] == text[0] && w[1..] <= rest;
        assert (front + [w[0]]) + w[1..] == front + w;
        PrefixWasThere(text[1..], v, front + [w[0]], w[1..]);
        assert w == [w[0]] + w[1..] && text == [text[0]] + text[1..];
      }
    }
  }

  lemma OccursLater(w: string, text: string, d: nat)
    requires d <= |text| && Occurs(w, text[d..])
    ensures Occurs(w, text)
  {
    var i: nat :| OccursAt(w, text[d..], i);
    assert text[d..][i..i + |w|] == text[d + i..d + i + |w|];
    assert OccursAt(w, text, d + i);
  }

  /** No replacement creates a value that no mark can help to make. */
  lemma {:induction false} ReplaceNeverCreates(text: string, v: string, w: string)
    requires v != "" && w != "" && !Overlaps(w) && Occurs(w, Replace(text, v))
    ensures Occurs(w, text)
    decreases |text|
  {
    var r := Replace(text, v);
    var i: nat :| OccursAt(w, r, i);
    if v <= text {
      var rest := Replace(text[|v|..], v);
      BehindMark(w, rest, i);
      ReplaceNeverCreates(text[|v|..], v, w);
      OccursLater(w, text, |v|);
    } else if i == 0 {
      assert "" + w == w;
      PrefixWasThere(text, v, "", w);
      assert OccursAt(w, text, 0);
    } else {
      var rest := Replace(text[1..], v);
      assert r[i..i + |w|] == rest[i - 1..i - 1 + |w|];
      assert OccursAt(w, rest, i - 1);
      ReplaceNeverCreates(text[1..], v, w);
      OccursLater(w, text, 1);
    }
  }

  /** A replacement leaves no occurrence of its own value. */
  lemma {:induction false} ReplaceRemoves(text: string, v: string)
    requires v != "" && !Overlaps(v)
    ensures !Occurs(v, Replace(text, v))
    decreases |text|
  {
    var r := Replace(text, v);
    forall i: nat | OccursAt(v, r, i) ensures false {
      if v <= text {
        var rest := Replace(text[|v|..], v);
        BehindMark(v, rest, i);
        ReplaceRemoves(text[|v|..], v);
        assert Occurs(v, rest);
      } else if i == 0 {
        assert "" + v == v;
        PrefixWasThere(text, v, "", v);
      } else {
        var rest := Replace(text[1..], v);
        assert r[i..i + |v|] == rest[i - 1..i - 1 + |v|];
        assert OccursAt(v, rest, i - 1);
        ReplaceRemoves(text[1..], v);
      }
    }
  }

  lemma ScrubNeverCreates(text: string, v: string, enc: string -> string, w: string)
    requires v != "" && w != "" && !Overlaps(w) && Occurs(w, Scrub(text, v, enc))
    ensures Occurs(w, text)
  {
    if enc(v) != v && enc(v) != "" { ReplaceNeverCreates(Replace(text, v), enc(v), w); }
    ReplaceNeverCreates(text, v, w);
  }

  lemma {:induction false} ScrubAllNeverCreates(text: string, vs: seq<string>, enc: string -> string, w: string)
    requires "" !in vs && w != "" && !Overlaps(w) && Occurs(w, ScrubAll(text, vs, enc))
    ensures Occurs(w, text)
    decreases |vs|
  {
    if vs != [] {
      ScrubAllNeverCreates(Scrub(text, vs[0], enc), vs[1..], enc, w);
      ScrubNeverCreates(text, vs[0], enc, w);
    }
  }

  /** The plain value, or the escaped one. */
  ghost predicate FormOf(w: string, v: string, enc: string -> string) {
    w == v || w == enc(v)
  }

  lemma ScrubRemoves(text: string, v: string, enc: string -> string, w: string)
    requires v != "" && w != "" && FormOf(w, v, enc) && !Overlaps(w)
    ensures !Occurs(w, Scrub(text, v, enc))
  {
    var plain := Replace(text, v);
    if w == v {
      ReplaceRemoves(text, v);
      if enc(v) != v && enc(v) != "" && Occurs(v, Scrub(text, v, enc)) { ReplaceNeverCreates(plain, enc(v), v); }
    } else {
      ReplaceRemoves(plain, enc(v));
    }
  }

  lemma {:induction false} ScrubAllRemoves(text: string, vs: seq<string>, enc: string -> string, v: string, w: string)
    requires "" !in vs && v in vs && w != "" && FormOf(w, v, enc) && !Overlaps(w)
    ensures !Occurs(w, ScrubAll(text, vs, enc))
    decreases |vs|
  {
    var next := Scrub(text, vs[0], enc);
    if v == vs[0] {
      ScrubRemoves(text, v, enc, w);
      if Occurs(w, ScrubAll(next, vs[1..], enc)) { ScrubAllNeverCreates(next, vs[1..], enc, w); }
    } else {
      ScrubAllRemoves(next, vs[1..], enc, v, w);
    }
  }

  /** Neither form of a value of four or more characters is left, if no mark can help to make it. */
  lemma NothingLeft(text: string, values: seq<string>, enc: string -> string, v: string, w: string)
    requires v in values && |v| >= 4 && w != "" && FormOf(w, v, enc) && !Overlaps(w)
    ensures !Occurs(w, Redacted(text, values, enc))
  {
    OrderedAre(values);
    ScrubAllRemoves(text, Ordered(values), enc, v, w);
  }

  /** The promise for ordinary secrets. */
  lemma SecretsAreGone(text: string, values: seq<string>, enc: string -> string, v: string)
    requires v in values && |v| >= 4
    requires '[' !in v && ']' !in v && !Occurs(v, WORD)
    ensures !Occurs(v, Redacted(text, values, enc))
  {
    PlainValuesDoNotOverlap(v);
    NothingLeft(text, values, enc, v, v);
  }

  // ----------------------------------------------------------------- JSON

  function Hex(n: nat): char
    requires n < 16
  {
    "0123456789abcdef"[n]
  }

  /** A character inside a JSON string, as `JSON.stringify` writes it. */
  function Escaped(c: char): string {
    if c == '\"' || c == '\\' then ['\\', c]
    else if c == '\U{8}' then "\\b"
    else if c == '\U{9}' then "\\t"
    else if c == '\U{A}' then "\\n"
    else if c == '\U{C}' then "\\f"
    else if c == '\U{D}' then "\\r"
    else if c < '\U{20}' then "\\u00" + [Hex(c as int / 16), Hex(c as int % 16)]
    else [c]
  }

  /** `JSON.stringify(value).slice(1, -1)`. */
  function Json(v: string): string {
    if v == "" then "" else Escaped(v[0]) + Json(v[1..])
  }

  /** Characters that no escape produces. */
  predicate Plain(c: char) {
    c in "wxyz"
  }

  lemma EscapedHas(e: char, c: char)
    requires Plain(c)
    ensures Escaped(e) == [e] || (|Escaped(e)| > 1 && e != c && forall i :: 0 <= i < |Escaped(e)| ==> Escaped(e)[i] != c)
  {
    if e < '\U{20}' { HexIsNotPlain(e as int / 16, c); HexIsNotPlain(e as int % 16, c); }
  }

  lemma HexIsNotPlain(n: nat, c: char)
    requires n < 16 && Plain(c)
    ensures Hex(n) != c
  {
  }

  function Count(text: string, c: char): nat {
    if text == "" then 0 else (if text[0] == c then 1 else 0) + Count(text[1..], c)
  }

  lemma {:induction false} CountJoin(a: string, b: string, c: char)
    ensures Count(a + b, c) == Count(a, c) + Count(b, c)
  {
    if a == "" {
      assert a + b == b;
    } else {
      assert (a + b)[1..] == a[1..] + b;
      CountJoin(a[1..], b, c);
    }
  }

  lemma {:induction false} CountNone(text: string, c: char)
    requires forall i :: 0 <= i < |text| ==> text[i] != c
    ensures Count(text, c) == 0
  {
    if text != "" { CountNone(text[1..], c); }
  }

  /** Escaping leaves a value alone or makes it longer. */
  lemma {:induction false} JsonLength(v: string)
    ensures Json(v) == v || |Json(v)| > |v|
  {
    hide Escaped;
    if v != "" {
      EscapedHas(v[0], 'w');
      JsonLength(v[1..]);
      assert v == [v[0]] + v[1..];
    }
  }

  /** It neither adds nor removes plain characters. */
  lemma {:induction false} JsonCount(v: string, c: char)
    requires Plain(c)
    ensures Count(Json(v), c) == Count(v, c)
  {
    hide Escaped;
    if v != "" {
      EscapedHas(v[0], c);
      JsonCount(v[1..], c);
      CountJoin(Escaped(v[0]), Json(v[1..]), c);
      if Escaped(v[0]) != [v[0]] { CountNone(Escaped(v[0]), c); }
    }
  }

  /** A value that begins and ends otherwise does so escaped. */
  lemma {:induction false} JsonEnds(v: string, c: char)
    requires Plain(c) && v != ""
    ensures Json(v) != "" && (v[0] != c ==> Json(v)[0] != c) && (v[|v| - 1] != c ==> Json(v)[|Json(v)| - 1] != c)
  {
    hide Escaped;
    EscapedHas(v[0], c);
    if |v| > 1 { JsonEnds(v[1..], c); } else { assert Json(v[1..]) == ""; }
  }

  predicate Printable(c: char) {
    ' ' <= c && c != '\"' && c != '\\'
  }

  lemma {:induction false} PlainJson(v: string)
    requires forall i :: 0 <= i < |v| ==> Printable(v[i])
    ensures Json(v) == v
  {
    if v != "" {
      assert Escaped(v[0]) == [v[0]];
      assert v == [v[0]] + v[1..];
      PlainJson(v[1..]);
    }
  }

  // ------------------------------------------------------------ exactness

  /** `n` times the same character. */
  function Repeat(c: char, n: nat): string {
    seq(n, _ => c)
  }

  lemma RepeatIs(c: char, n: nat)
    ensures |Repeat(c, n)| == n && forall i :: 0 <= i < n ==> Repeat(c, n)[i] == c
  {
  }

  lemma {:induction false} CountRepeat(c: char, n: nat)
    ensures Count(Repeat(c, n), c) == n
  {
    if n > 0 {
      assert Repeat(c, n)[1..] == Repeat(c, n - 1);
      CountRepeat(c, n - 1);
    }
  }

  lemma {:induction false} CountBound(text: string, c: char)
    ensures Count(text, c) <= |text| && (Count(text, c) == |text| ==> forall i :: 0 <= i < |text| ==> text[i] == c)
  {
    if text != "" {
      CountBound(text[1..], c);
      assert forall i :: 1 <= i < |text| ==> text[i] == text[1..][i - 1];
    }
  }

  /** Neither a value nor its escaped form holds as many plain characters in a row as the value is long. */
  lemma NoRunInside(w: string, c: char, form: string)
    requires Plain(c) && w != "" && w[0] != c && (form == w || form == Json(w))
    ensures !Occurs(Repeat(c, |w|), form)
  {
    hide Json, Repeat, Count;
    var u := Repeat(c, |w|);
    JsonCount(w, c);
    CountBound(w, c);
    CountRepeat(c, |w|);
    if Occurs(u, form) { CountWithin(u, form, c); }
  }

  lemma CountWithin(u: string, text: string, c: char)
    requires Occurs(u, text)
    ensures Count(u, c) <= Count(text, c)
  {
    hide Count;
    var i: nat :| OccursAt(u, text, i);
    var before, after := text[..i], text[i + |u|..];
    assert text == before + u + after;
    CountJoin(before + u, after, c);
    CountJoin(before, u, c);
  }

  /** A text around a run of a character holds no form that begins and ends otherwise and holds no such run. */
  lemma NotAround(front: string, back: string, u: string, form: string, c: char)
    requires u == Repeat(c, |u|) && |front| < |form| && |back| < |form| && !Occurs(u, form)
    requires form[0] != c && form[|form| - 1] != c
    ensures !Occurs(form, front + u + back)
  {
    var text, m := front + u + back, |form|;
    forall i: nat | i + m <= |text| ensures !OccursAt(form, text, i) {
      var window := text[i..i + m];
      if i < |front| {
        if i + m <= |front| + |u| {
          assert window[m - 1] == text[i + m - 1] == c;
        } else if window == form {
          var d := |front| - i;
          forall j | 0 <= j < |u| ensures form[d..d + |u|][j] == u[j] { assert window[d + j] == text[|front| + j]; }
          assert OccursAt(u, form, d);
        }
      } else {
        assert i < |front| + |u|;
        assert window[0] == text[i] == c;
      }
    }
  }

  lemma ReplaceHead(u: string, rest: string)
    requires u != ""
    ensures Replace(u + rest, u) == MARK + Replace(rest, u)
  {
    assert (u + rest)[|u|..] == rest;
  }

  /** Dropping the first character moves an occurrence one place to the front. */
  lemma OccursOneLater(u: string, text: string, i: nat)
    requires text != "" && OccursAt(u, text[1..], i)
    ensures OccursAt(u, text, i + 1)
  {
    assert text[i + 1..i + 1 + |u|] == text[1..][i..i + |u|];
  }

  lemma ReplaceSkips(u: string, text: string)
    requires u != "" && text != "" && !OccursAt(u, text, 0)
    ensures Replace(text, u) == [text[0]] + Replace(text[1..], u)
  {
    assert |u| <= |text| ==> text[0..|u|] != u;
  }

  /** Text with no match starting in it is passed over. */
  lemma {:induction false} PassOver(front: string, rest: string, u: string)
    requires u != "" && forall i: nat :: i < |front| ==> !OccursAt(u, front + rest, i)
    ensures Replace(front + rest, u) == front + Replace(rest, u)
    decreases |front|
  {
    hide Replace, OccursAt;
    var text := front + rest;
    if front == "" {
      assert text == rest;
    } else {
      ReplaceSkips(u, text);
      assert text[1..] == front[1..] + rest;
      forall i: nat | i < |front| - 1 ensures !OccursAt(u, front[1..] + rest, i) {
        if OccursAt(u, text[1..], i) { OccursOneLater(u, text, i); }
      }
      PassOver(front[1..], rest, u);
    }
  }

  /** No match of the run starts in front of it, across a last character that is another. */
  lemma NotEarlier(front: string, u: string, back: string, c: char)
    requires u == Repeat(c, |u|) && |front| < |u| && (front != "" ==> front[|front| - 1] != c)
    ensures forall i: nat :: i < |front| ==> !OccursAt(u, front + (u + back), i)
  {
    RepeatIs(c, |u|);
    hide Repeat;
    var text, last := front + (u + back), |front| - 1;
    forall i: nat | i < |front| ensures !OccursAt(u, text, i) {
      assert text[last] != c && u[last - i] == c;
      assert i + |u| <= |text| ==> text[i..i + |u|][last - i] == text[last];
    }
  }

  /** The run is the leftmost match, and the only one. */
  lemma ReplaceRun(front: string, u: string, back: string, c: char)
    requires u == Repeat(c, |u|) && |front| < |u| && |back| < |u| && (front != "" ==> front[|front| - 1] != c)
    ensures Replace(front + u + back, u) == front + MARK + back
  {
    hide Replace, Repeat;
    assert front + u + back == front + (u + back);
    NotEarlier(front, u, back, c);
    PassOver(front, u + back, u);
    ReplaceHead(u, back);
    ReplaceAbsent(back, u);
    assert front + MARK + back == front + (MARK + back);
  }

  /** What is left of an unmatched text is the text. */
  lemma {:induction false} ReplaceAbsent(text: string, v: string)
    requires v != "" && !Occurs(v, text)
    ensures Replace(text, v) == text
    decreases |text|
  {
    if v <= text { assert OccursAt(v, text, 0); }
    if text != "" {
      if Occurs(v, text[1..]) { OccursLater(v, text, 1); }
      ReplaceAbsent(text[1..], v);
    }
  }

  /** Something redacted as `w`, plain or escaped, is still in some text after redaction. */
  ghost predicate CanSurvive(w: string, enc: string -> string) {
    exists text: string, values: seq<string>, v: string ::
      v in values && |v| >= 4 && FormOf(w, v, enc) && Occurs(w, Redacted(text, values, enc))
  }

  /**
   * Exactly: a form of four or more characters can survive in some text, with some companions, if and
   * only if a mark can help to make it; and if not, it is gone however values are escaped.
   */
  lemma SurvivesIff(w: string)
    requires |w| >= 4
    ensures CanSurvive(w, Json) <==> Overlaps(w)
    ensures !Overlaps(w) ==> forall enc: string -> string :: !CanSurvive(w, enc)
  {
    if Overlaps(w) {
      var k :| Fits(w, k);
      var text, values := Survivor(w, k);
      assert w in values && FormOf(w, w, Json) && Occurs(w, Redacted(text, values, Json));
    } else {
      forall enc: string -> string ensures !CanSurvive(w, enc) {
        if CanSurvive(w, enc) {
          var text, values, v :|
            v in values && |v| >= 4 && FormOf(w, v, enc) && Occurs(w, Redacted(text, values, enc));
          NothingLeft(text, values, enc, v, w);
        }
      }
    }
  }

  /** The text around a mark that makes `w` whole. */
  lemma Completed(w: string, k: int) returns (front: string, back: string)
    requires |w| > 0 && Fits(w, k)
    ensures |front| < |w| && |back| < |w| && Occurs(w, front + MARK + back)
  {
    front := if k < 0 then w[..-k] else "";
    back := if |w| > |MARK| - k then w[|MARK| - k..] else "";
    var left := front + MARK + back;
    var at: nat := if k < 0 then 0 else k;
    assert at + |w| <= |left|;
    forall i | 0 <= i < |w| ensures left[at + i] == w[i] {
      if 0 <= k + i < |MARK| { assert left[at + i] == MARK[k + i]; }
    }
    assert left[at..at + |w|] == w;
    assert OccursAt(w, left, at);
  }

  lemma ScrubTwo(text: string, w: string, u: string)
    requires MIN_REDACTABLE <= |u| <= |w|
    requires !Occurs(w, text) && !Occurs(Json(w), text) && Json(w) != "" && Json(u) == u
    ensures Redacted(text, [w, u], Json) == Replace(text, u)
  {
    var values := [w, u];
    assert values[1..] == [u] && [u][1..] == [];
    assert Ordered([u]) == [u];
    assert Ordered(values) == values;
    ReplaceAbsent(text, w);
    ReplaceAbsent(text, Json(w));
    assert ScrubAll(text, [u], Json) == ScrubAll(Replace(text, u), [], Json);
  }

  /** One of four plain characters is none of the three that matter. */
  function Fresh(a: char, b: char, c: char): (f: char)
    ensures Plain(f) && f != a && f != b && f != c
  {
    if 'w' != a && 'w' != b && 'w' != c then 'w'
    else if 'x' != a && 'x' != b && 'x' != c then 'x'
    else if 'y' != a && 'y' != b && 'y' != c then 'y'
    else 'z'
  }

  /** A run of a fresh character as long as the value hides both its forms. */
  lemma BothAbsent(w: string, front: string, back: string, c: char)
    requires Plain(c) && w != "" && |front| < |w| && |back| < |w| && w[0] != c && w[|w| - 1] != c
    ensures !Occurs(w, front + Repeat(c, |w|) + back) && !Occurs(Json(w), front + Repeat(c, |w|) + back) && Json(w) != ""
  {
    hide Json, Repeat, Occurs;
    RepeatIs(c, |w|);
    JsonLength(w);
    JsonEnds(w, c);
    NoRunInside(w, c, w);
    NoRunInside(w, c, Json(w));
    NotAround(front, back, Repeat(c, |w|), w, c);
    NotAround(front, back, Repeat(c, |w|), Json(w), c);
  }

  /** A companion in the gap of the text is replaced by the mark that completes the value. */
  lemma Survivor(w: string, k: int) returns (text: string, values: seq<string>)
    requires |w| >= 4 && Fits(w, k)
    ensures w in values && Occurs(w, Redacted(text, values, Json))
  {
    hide Json, Redacted, Replace, Repeat, Occurs, Fits, Fresh;
    var front, back := Completed(w, k);
    var c := Fresh(w[0], w[|w| - 1], if front == "" then w[0] else front[|front| - 1]);
    var u := Repeat(c, |w|);
    text, values := front + u + back, [w, u];
    BothAbsent(w, front, back, c);
    RepeatIs(c, |w|);
    RepeatPlain(c, |w|);
    ScrubTwo(text, w, u);
    ReplaceRun(front, u, back, c);
  }

  lemma RepeatPlain(c: char, n: nat)
    requires Plain(c)
    ensures Json(Repeat(c, n)) == Repeat(c, n)
  {
    hide Json;
    PlainJson(Repeat(c, n));
  }

  /** The mark completes a value that the text held only in part: "a[re" out of "azzzz". */
  lemma SecretIsMade()
    ensures var values := ["a[re", "zzzz"];
            && !Occurs("a[re", "azzzz")
            && Redacted("azzzz", values, Json) == "a[redacted]" && Occurs("a[re", Redacted("azzzz", values, Json))
  {
    hide Json, Redacted, Replace;
    var text, w, u := "azzzz", "a[re", "zzzz";
    assert u == Repeat('z', 4) && "a" + u + "" == text && |w| == 4;
    PlainJson(w);
    PlainJson(u);
    NoRunInside(w, 'z', w);
    NotAround("a", "", u, w, 'z');
    ScrubTwo(text, w, u);
    ReplaceRun("a", u, "", 'z');
    assert "a" + MARK + "" == "a[redacted]";
    assert "a[redacted]"[0..4] == w;
    assert OccursAt(w, "a[redacted]", 0);
  }

  lemma ScrubSelf(v: string)
    requires |v| >= 4 && Json(v) == v
    ensures Redacted(v, [v], Json) == MARK
  {
    hide Json;
    var none: seq<string> := [];
    assert [v][1..] == none && Ordered(none) == none && Ordered([v]) == [v];
    assert v[|v|..] == "" && Replace("", v) == "";
    assert Replace(v, v) == MARK + "" == MARK;
    assert ScrubAll(v, [v], Json) == ScrubAll(MARK, none, Json);
  }

  /** A value inside the word of the mark survives its own redaction. */
  lemma SecretInsideMark()
    ensures Redacted("dact", ["dact"], Json) == MARK && Occurs("dact", MARK)
  {
    hide Json, Redacted;
    PlainJson("dact");
    ScrubSelf("dact");
    assert MARK[3..7] == "dact";
    assert OccursAt("dact", MARK, 3);
  }

  // --------------------------------------------------------- other promises

  /** A text without any value in either form is returned as it is. */
  lemma NothingToRedact(text: string, values: seq<string>, enc: string -> string)
    requires forall v :: v in values && |v| >= 4 ==> !Occurs(v, text) && !Occurs(enc(v), text)
    ensures Redacted(text, values, enc) == text
  {
    OrderedAre(values);
    ScrubAllAbsent(text, Ordered(values), enc);
  }

  lemma {:induction false} ScrubAllAbsent(text: string, vs: seq<string>, enc: string -> string)
    requires "" !in vs && forall v :: v in vs ==> !Occurs(v, text) && !Occurs(enc(v), text)
    ensures ScrubAll(text, vs, enc) == text
    decreases |vs|
  {
    if vs != [] {
      assert vs[0] in vs;
      ReplaceAbsent(text, vs[0]);
      if enc(vs[0]) != "" { ReplaceAbsent(text, enc(vs[0])); }
      assert forall v :: v in vs[1..] ==> v in vs;
      ScrubAllAbsent(text, vs[1..], enc);
    }
  }

  /** Escaping leaves a value alone or makes it longer. */
  ghost predicate Lengthens(enc: string -> string) {
    forall v :: enc(v) == v || |enc(v)| > |v|
  }

  ghost predicate Descending(vs: seq<string>) {
    forall i, j :: 0 <= i < j < |vs| ==> |vs[i]| >= |vs[j]|
  }

  lemma {:induction false} InsertDescending(v: string, sorted: seq<string>)
    requires Descending(sorted)
    ensures Descending(Insert(v, sorted))
  {
    if sorted != [] && |v| < |sorted[0]| {
      InsertDescending(v, sorted[1..]);
      var r := Insert(v, sorted[1..]);
      InsertIs(v, sorted[1..]);
      forall j | 0 <= j < |r| ensures |sorted[0]| >= |r[j]| { assert r[j] in r; }
    }
  }

  lemma {:induction false} OrderedDescending(values: seq<string>)
    ensures Descending(Ordered(values))
  {
    if values != [] {
      OrderedDescending(values[1..]);
      if |values[0]| >= MIN_REDACTABLE { InsertDescending(values[0], Ordered(values[1..])); }
    }
  }

  /**
   * Why longest first: a secret that is the whole text vanishes whole, even if other values are parts
   * of it, so no remainder of a longer secret is left beside the mark of a shorter one.
   */
  lemma WholeSecretVanishes(values: seq<string>, enc: string -> string, v: string)
    requires v in values && |v| >= 4 && Lengthens(enc)
    requires forall u :: u in values && |u| >= 4 ==> !Occurs(u, MARK) && !Occurs(enc(u), MARK)
    ensures Redacted(v, values, enc) == MARK
  {
    OrderedAre(values);
    OrderedDescending(values);
    WholeVanishes(Ordered(values), enc, v);
  }

  lemma TooLong(u: string, text: string)
    requires |u| > |text| || (|u| == |text| && u != text)
    ensures !Occurs(u, text)
  {
    forall i: nat | i + |u| <= |text| ensures !OccursAt(u, text, i) {
      assert i == 0 && text[0..|u|] == text;
    }
  }

  lemma {:induction false} WholeVanishes(vs: seq<string>, enc: string -> string, v: string)
    requires "" !in vs && v in vs && Descending(vs) && Lengthens(enc)
    requires forall u :: u in vs ==> !Occurs(u, MARK) && !Occurs(enc(u), MARK)
    ensures ScrubAll(v, vs, enc) == MARK
    decreases |vs|
  {
    assert vs[0] in vs;
    assert forall u :: u in vs[1..] ==> u in vs;
    if vs[0] == v {
      assert v[|v|..] == "" && Replace("", v) == "";
      assert Replace(v, v) == MARK;
      if enc(v) != "" { ReplaceAbsent(MARK, enc(v)); }
      assert Scrub(v, v, enc) == MARK;
      ScrubAllAbsent(MARK, vs[1..], enc);
    } else {
      var j :| 0 <= j < |vs| && vs[j] == v;
      assert |vs[0]| >= |v|;
      TooLong(vs[0], v);
      ReplaceAbsent(v, vs[0]);
      if enc(vs[0]) != vs[0] { TooLong(enc(vs[0]), v); if enc(vs[0]) != "" { ReplaceAbsent(v, enc(vs[0])); } }
      assert v in vs[1..];
      WholeVanishes(vs[1..], enc, v);
    }
  }
}
