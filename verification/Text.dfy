/** Go strings as the control plane uses them: lexicographic order, whitespace
    trimming and the identifier grammar. */
module Text {

  // ----- order -----

  /** Go's `<` on strings. */
  predicate Less(a: string, b: string)
  {
    b != [] && (a == [] || a[0] < b[0] || (a[0] == b[0] && Less(a[1..], b[1..])))
  }

  lemma LessAsymmetric(a: string, b: string)
    ensures !(Less(a, b) && Less(b, a))
  {
  }

  lemma {:induction false} LessTotal(a: string, b: string)
    ensures a == b || Less(a, b) || Less(b, a)
  {
    if a == [] || b == [] {
    } else if a[0] == b[0] {
      LessTotal(a[1..], b[1..]);
      assert a == [a[0]] + a[1..] && b == [b[0]] + b[1..];
    }
  }

  lemma {:induction false} LessTransitive(a: string, b: string, c: string)
    requires Less(a, b) && Less(b, c)
    ensures Less(a, c)
  {
    if a != [] && a[0] == b[0] == c[0] {
      LessTransitive(a[1..], b[1..], c[1..]);
    }
  }

  /** The three order laws at once, for callers that sort by a string key. */
  lemma LessIsStrictTotal()
    ensures forall a, b :: !(Less(a, b) && Less(b, a))
    ensures forall a, b :: Less(a, b) || Less(b, a) || a == b
    ensures forall a, b, c :: Less(a, b) && Less(b, c) ==> Less(a, c)
  {
    forall a, b ensures !(Less(a, b) && Less(b, a)) { LessAsymmetric(a, b); }
    forall a, b ensures Less(a, b) || Less(b, a) || a == b { LessTotal(a, b); }
    forall a, b, c | Less(a, b) && Less(b, c) ensures Less(a, c) { LessTransitive(a, b, c); }
  }

  // ----- trimming -----

  /** unicode.IsSpace */
  predicate IsSpace(c: char)
  {
    '\t' <= c <= '\r' || c == ' ' || c == '\U{85}' || c == '\U{A0}' || c == '\U{1680}' ||
    '\U{2000}' <= c <= '\U{200A}' || c == '\U{2028}' || c == '\U{2029}' ||
    c == '\U{202F}' || c == '\U{205F}' || c == '\U{3000}'
  }

  /** strings.TrimSpace */
  function Trim(s: string): (r: string)
    ensures r != [] ==> !IsSpace(r[0]) && !IsSpace(r[|r| - 1])
    ensures s != [] && !IsSpace(s[0]) && !IsSpace(s[|s| - 1]) ==> r == s
  {
    if s == [] then []
    else if IsSpace(s[0]) then Trim(s[1..])
    else if IsSpace(s[|s| - 1]) then Trim(s[..|s| - 1])
    else s
  }

  lemma TrimIdempotent(s: string)
    ensures Trim(Trim(s)) == Trim(s)
  {
  }

  predicate AllSpace(s: string) { forall c | c in s :: IsSpace(c) }

  lemma SpaceAdded(c: char, s: string)
    requires IsSpace(c) && AllSpace(s)
    ensures AllSpace([c] + s) && AllSpace(s + [c])
  {
    hide IsSpace;
  }

  lemma Regrouped(c: char, before: string, middle: string, after: string)
    ensures [c] + (before + middle + after) == [c] + before + middle + after
    ensures before + middle + after + [c] == before + middle + (after + [c])
  {
  }

  /** Trimming takes away spaces at either end and nothing else. */
  lemma {:induction false} TrimMeans(s: string) returns (before: string, after: string)
    ensures s == before + Trim(s) + after && AllSpace(before) && AllSpace(after)
  {
    hide IsSpace;
    hide AllSpace;
    NoSpace();
    if s != [] && IsSpace(s[0]) {
      var inner, rest := TrimMeans(s[1..]);
      SpaceAdded(s[0], inner);
      Regrouped(s[0], inner, Trim(s[1..]), rest);
      assert s == [s[0]] + s[1..];
      before, after := [s[0]] + inner, rest;
    } else if s != [] && IsSpace(s[|s| - 1]) {
      var rest, inner := TrimMeans(s[..|s| - 1]);
      SpaceAdded(s[|s| - 1], inner);
      Regrouped(s[|s| - 1], rest, Trim(s[..|s| - 1]), inner);
      assert s == s[..|s| - 1] + [s[|s| - 1]];
      before, after := rest, inner + [s[|s| - 1]];
    } else {
      before, after := "", "";
    }
  }

  lemma NoSpace()
    ensures AllSpace("")
  {
  }

  // ----- identifiers -----

  predicate IsAlphanumeric(c: char)
  {
    'a' <= c <= 'z' || 'A' <= c <= 'Z' || '0' <= c <= '9'
  }

  /** The identifier pattern shared by the contracts: alphanumeric ends, and
      dots, underscores or hyphens (colons too where `colon` is set) between. */
  predicate IsIdentifier(s: string, limit: nat, colon: bool)
  {
    && 1 <= |s| <= limit
    && IsAlphanumeric(s[0]) && IsAlphanumeric(s[|s| - 1])
    && forall i | 0 <= i < |s| ::
         IsAlphanumeric(s[i]) || s[i] in "._-" || (colon && s[i] == ':')
  }

  lemma TrimIdentifier(s: string, limit: nat, colon: bool)
    requires IsIdentifier(s, limit, colon)
    ensures Trim(s) == s
  {
  }

  // ----- names and tokens -----

  /** Bytes of the UTF-8 encoding. */
  function ByteLength(s: string): nat
  {
    if s == [] then 0
    else
      var c := s[0];
      (if c < '\U{80}' then 1 else if c < '\U{800}' then 2 else if c < '\U{10000}' then 3 else 4) + ByteLength(s[1..])
  }

  /** unicode.IsControl */
  predicate IsControl(c: char)
  {
    c <= '\U{1F}' || '\U{7F}' <= c <= '\U{9F}'
  }

  predicate IsDisplayName(s: string)
  {
    s != "" && Trim(s) == s && ByteLength(s) <= 255 && forall c | c in s :: !IsControl(c)
  }

  /** Resource versions and idempotency keys. */
  predicate IsOpaqueToken(s: string)
  {
    s != "" && Trim(s) == s && ByteLength(s) <= 255 && forall c | c in s :: !IsControl(c) && !IsSpace(c)
  }

  /** strings.ToLower on ASCII letters. */
  function Lower(s: string): string
  {
    seq(|s|, i requires 0 <= i < |s| =>
      if 'A' <= s[i] <= 'Z' then (s[i] as int - 'A' as int + 'a' as int) as char else s[i])
  }

  /** strings.ToUpper on ASCII letters. */
  function Upper(s: string): string
  {
    seq(|s|, i requires 0 <= i < |s| =>
      if 'a' <= s[i] <= 'z' then (s[i] as int - 'a' as int + 'A' as int) as char else s[i])
  }
}
