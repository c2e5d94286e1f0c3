/** Python's `str.format(**context)` for the templates the error catalogue uses:
    literal text, the escapes `{{` and `}}`, and replacement fields `{name}`
    looked up by keyword in a context of already-rendered strings.

    The model separates two stages that Python interleaves: the template is
    first scanned whole into pieces (`Parse`), then every field is
    substituted (`Substitute`). Python scans lazily and raises at the first
    problem it meets, so which exception it raises can differ from the stage
    the model fails in (`"{missing} }"` raises `KeyError` in Python, while
    `Parse` already fails). The model matches Python only on success versus
    failure: any failure (an unmatched brace, a field that is not a plain
    keyword, a key missing from the context) is `None`, and the caller's
    `except Exception` treats every exception alike. */
module StrFormat {

  datatype Option<+T> = None | Some(value: T)

  /** One element of a scanned template. */
  datatype Piece = Lit(c: char) | Field(name: string)

  predicate IsDigit(c: char) {
    '0' <= c <= '9'
  }

  /** An empty or all-digit field name is a positional index in Python. */
  predicate IsPositional(name: string) {
    forall i :: 0 <= i < |name| ==> IsDigit(name[i])
  }

  /** Characters that end or nest a field name, or start a conversion,
      a format spec, an attribute or an index access. */
  predicate IsSpecial(c: char) {
    c == '{' || c == '}' || c == ':' || c == '!' || c == '.' || c == '['
  }

  /** A field name that Python looks up as a keyword with no conversion,
      format spec, attribute or index access. */
  predicate Plain(name: string) {
    !IsPositional(name) && forall i :: 0 <= i < |name| ==> !IsSpecial(name[i])
  }

  /** No character of `s` is a brace. */
  predicate BraceFree(s: string) {
    forall i :: 0 <= i < |s| ==> s[i] != '{' && s[i] != '}'
  }

  /** Every field of a piece sequence is a plain keyword field. */
  predicate WellFormed(ps: seq<Piece>) {
    forall i :: 0 <= i < |ps| ==> ps[i].Field? ==> Plain(ps[i].name)
  }

  /** The names of all replacement fields of a piece sequence. */
  function Fields(ps: seq<Piece>): set<string> {
    if ps == [] then {}
    else (if ps[0].Field? then {ps[0].name} else {}) + Fields(ps[1..])
  }

  /** The literal pieces spelling out a brace-free text. */
  function Lits(s: string): (ps: seq<Piece>)
    ensures |ps| == |s|
    ensures forall i :: 0 <= i < |s| ==> ps[i] == Lit(s[i])
  {
    seq(|s|, i requires 0 <= i < |s| => Lit(s[i]))
  }

  function PrefixWith(s: string, r: Option<string>): Option<string> {
    match r
    case None => None
    case Some(v) => Some(s + v)
  }

  function Prepend(p: Piece, r: Option<seq<Piece>>): Option<seq<Piece>> {
    match r
    case None => None
    case Some(ps) => Some([p] + ps)
  }

  /** The index of the first `}` at or after `i`, or `|t|` when there is none. */
  function CloseIndex(t: string, i: nat): (k: nat)
    requires i <= |t|
    ensures i <= k <= |t|
    ensures k < |t| ==> t[k] == '}'
    ensures forall j :: i <= j < k ==> t[j] != '}'
    decreases |t| - i
  {
    if i == |t| || t[i] == '}' then i else CloseIndex(t, i + 1)
  }

  /** Scans a whole template into pieces; `None` when it holds a lone brace
      or a field this model does not admit. The pieces hold only plain
      fields, and there are never more pieces than characters. */
  function Parse(t: string): (r: Option<seq<Piece>>)
    ensures r.Some? ==> WellFormed(r.value) && |r.value| <= |t|
    decreases |t|
  {
    if t == [] then Some([])
    else if t[0] == '{' then
      if |t| >= 2 && t[1] == '{' then Prepend(Lit('{'), Parse(t[2..]))
      else
        var k := CloseIndex(t, 1);
        if k == |t| || !Plain(t[1..k]) then None
        else Prepend(Field(t[1..k]), Parse(t[k + 1..]))
    else if t[0] == '}' then
      if |t| >= 2 && t[1] == '}' then Prepend(Lit('}'), Parse(t[2..]))
      else None
    else Prepend(Lit(t[0]), Parse(t[1..]))
  }

  /** Replaces every field by its context value; `None` when a field's name
      is missing from the context. Substitution is all-or-nothing: it
      succeeds exactly when every field has a context entry. */
  function Substitute(ps: seq<Piece>, ctx: map<string, string>): (r: Option<string>)
    ensures r.Some? <==> Fields(ps) <= ctx.Keys
  {
    if ps == [] then Some("")
    else
      match Substitute(ps[1..], ctx)
      case None => None
      case Some(rest) =>
        match ps[0]
        case Lit(c) => Some([c] + rest)
        case Field(n) => if n in ctx then Some(ctx[n] + rest) else None
  }

  /** `template.format(**ctx)`, or `None` when Python would raise. */
  function Format(t: string, ctx: map<string, string>): Option<string> {
    match Parse(t)
    case None => None
    case Some(ps) => Substitute(ps, ctx)
  }

  /** The template text a piece stands for. */
  function Spell(p: Piece): string {
    match p
    case Lit(c) => if c == '{' then "{{" else if c == '}' then "}}" else [c]
    case Field(n) => "{" + n + "}"
  }

  /** Writes pieces back as template text: the inverse of `Parse`. */
  function Unparse(ps: seq<Piece>): string {
    if ps == [] then "" else Spell(ps[0]) + Unparse(ps[1..])
  }

  // ---------------------------------------------------------------------
  // Scanning is lossless: Parse and Unparse are inverse to each other.
  // ---------------------------------------------------------------------

  lemma CloseIndexOfField(n: string, rest: string)
    requires forall j :: 0 <= j < |n| ==> n[j] != '}'
    ensures CloseIndex("{" + n + "}" + rest, 1) == |n| + 1
  {
    var t := "{" + n + "}" + rest;
    assert t[|n| + 1] == '}';
    assert forall j :: 1 <= j <= |n| ==> t[j] == n[j - 1];
  }

  /** Scanning the spelling of one literal piece yields that piece. */
  lemma ParseSpellLit(c: char, rest: string)
    ensures Parse(Spell(Lit(c)) + rest) == Prepend(Lit(c), Parse(rest))
  {
    var t := Spell(Lit(c)) + rest;
    if c == '{' || c == '}' {
      assert t == [c, c] + rest;
      assert t[0] == c && t[1] == c && t[2..] == rest;
    } else {
      assert t == [c] + rest;
      assert t[0] == c && t[1..] == rest;
    }
  }

  /** Scanning the spelling of one plain field yields that field. */
  lemma ParseSpellField(n: string, rest: string)
    requires Plain(n)
    ensures Parse(Spell(Field(n)) + rest) == Prepend(Field(n), Parse(rest))
  {
    var t := "{" + n + "}" + rest;
    assert Spell(Field(n)) + rest == t;
    assert !IsPositional(n);
    assert |n| > 0;
    CloseIndexOfField(n, rest);
    assert t[0] == '{' && t[1] == n[0];
    assert t[1..|n| + 1] == n;
    assert t[|n| + 2..] == rest;
  }

  lemma WellFormedTail(ps: seq<Piece>)
    requires ps != [] && WellFormed(ps)
    ensures WellFormed(ps[1..])
    ensures ps[0].Field? ==> Plain(ps[0].name)
  {
    forall i | 0 <= i < |ps[1..]| && ps[1..][i].Field? ensures Plain(ps[1..][i].name) {
      assert ps[1..][i] == ps[i + 1];
    }
  }

  /** Every well-formed piece sequence is read back unchanged. */
  lemma {:induction false} ParseUnparse(ps: seq<Piece>)
    requires WellFormed(ps)
    ensures Parse(Unparse(ps)) == Some(ps)
  {
    if ps != [] {
      var rest := Unparse(ps[1..]);
      WellFormedTail(ps);
      ParseUnparse(ps[1..]);
      match ps[0] {
        case Lit(c) => ParseSpellLit(c, rest);
        case Field(n) => ParseSpellField(n, rest);
      }
      assert ps == [ps[0]] + ps[1..];
    }
  }

  /** Whatever `Parse` accepts it accepts exactly: the pieces spell the
      template back and admit only plain fields. */
  lemma {:induction false} UnparseParse(t: string, ps: seq<Piece>)
    requires Parse(t) == Some(ps)
    ensures Unparse(ps) == t && WellFormed(ps)
    decreases |t|
  {
    if t != [] {
      var head, skip := ScanStep(t, ps);
      var tail := ps[1..];
      UnparseParse(t[skip..], tail);
      assert t == Spell(head) + t[skip..];
      assert WellFormed(ps) by {
        forall i | 0 <= i < |ps| && ps[i].Field? ensures Plain(ps[i].name) {
          if i > 0 { assert ps[i] == tail[i - 1]; }
        }
      }
    }
  }

  /** One step of a successful scan: the first piece, and how much template
      text it consumed. */
  lemma ScanStep(t: string, ps: seq<Piece>) returns (head: Piece, skip: nat)
    requires t != [] && Parse(t) == Some(ps)
    ensures 0 < skip <= |t| && ps != [] && ps[0] == head
    ensures Parse(t[skip..]) == Some(ps[1..])
    ensures t[..skip] == Spell(head)
    ensures head.Field? ==> Plain(head.name)
  {
    if t[0] == '{' {
      if |t| >= 2 && t[1] == '{' {
        head, skip := Lit('{'), 2;
      } else {
        var k := CloseIndex(t, 1);
        head, skip := Field(t[1..k]), k + 1;
        assert t[..skip] == "{" + t[1..k] + "}";
      }
    } else if t[0] == '}' {
      head, skip := Lit('}'), 2;
    } else {
      head, skip := Lit(t[0]), 1;
    }
  }

  // ---------------------------------------------------------------------
  // Substitution is blind to keys no field names.
  // ---------------------------------------------------------------------

  /** Two contexts that agree on the fields give the same substitution. */
  lemma {:induction false} SubstituteAgrees(ps: seq<Piece>, c1: map<string, string>, c2: map<string, string>)
    requires forall n :: n in Fields(ps) ==> (n in c1 <==> n in c2)
    requires forall n :: n in Fields(ps) && n in c1 ==> c1[n] == c2[n]
    ensures Substitute(ps, c1) == Substitute(ps, c2)
  {
    if ps != [] {
      SubstituteAgrees(ps[1..], c1, c2);
    }
  }

  lemma LitsCons(s: string, qs: seq<Piece>)
    requires s != []
    ensures (Lits(s) + qs)[0] == Lit(s[0])
    ensures (Lits(s) + qs)[1..] == Lits(s[1..]) + qs
  {
    assert Lits(s) + qs == [Lit(s[0])] + (Lits(s[1..]) + qs);
  }

  /** Literal pieces name no field. */
  lemma {:induction false} FieldsLits(s: string, qs: seq<Piece>)
    ensures Fields(Lits(s) + qs) == Fields(qs)
    ensures WellFormed(qs) ==> WellFormed(Lits(s) + qs)
  {
    if s == [] {
      assert Lits(s) + qs == qs;
    } else {
      var ps := Lits(s) + qs;
      LitsCons(s, qs);
      FieldsLits(s[1..], qs);
      assert Fields(ps) == Fields(ps[1..]);
      if WellFormed(qs) {
        forall i | 0 <= i < |ps| && ps[i].Field? ensures Plain(ps[i].name) {
          assert i > 0 && ps[i] == ps[1..][i - 1];
        }
      }
    }
  }

  /** Literal text comes through substitution unchanged. */
  lemma {:induction false} SubstituteLits(s: string, qs: seq<Piece>, ctx: map<string, string>)
    ensures Substitute(Lits(s) + qs, ctx) == PrefixWith(s, Substitute(qs, ctx))
  {
    if s == [] {
      assert Lits(s) + qs == qs;
      match Substitute(qs, ctx)
      case None =>
      case Some(r) => assert s + r == r;
    } else {
      var ps := Lits(s) + qs;
      LitsCons(s, qs);
      SubstituteLits(s[1..], qs, ctx);
      match Substitute(qs, ctx)
      case None =>
        assert Substitute(ps[1..], ctx) == None;
      case Some(r) =>
        assert Substitute(ps[1..], ctx) == Some(s[1..] + r);
        assert Substitute(ps, ctx) == Some([s[0]] + (s[1..] + r));
        assert [s[0]] + (s[1..] + r) == s + r;
    }
  }

  /** Joining two brace-free texts gives a brace-free text. */
  lemma BraceFreeConcat(a: string, b: string)
    requires BraceFree(a) && BraceFree(b)
    ensures BraceFree(a + b)
  {
  }

  lemma BraceFreeTail(s: string)
    requires s != [] && BraceFree(s)
    ensures BraceFree(s[1..]) && s[0] != '{' && s[0] != '}'
  {
  }

  lemma UnparseLitsStep(s: string, qs: seq<Piece>)
    requires s != [] && s[0] != '{' && s[0] != '}'
    ensures Unparse(Lits(s) + qs) == [s[0]] + Unparse(Lits(s[1..]) + qs)
  {
    LitsCons(s, qs);
  }

  lemma {:induction false} UnparseLits(s: string, qs: seq<Piece>)
    requires BraceFree(s)
    ensures Unparse(Lits(s) + qs) == s + Unparse(qs)
  {
    if s == [] {
      assert Lits(s) + qs == qs;
    } else {
      BraceFreeTail(s);
      calc {
        Unparse(Lits(s) + qs);
      == { UnparseLitsStep(s, qs); }
        [s[0]] + Unparse(Lits(s[1..]) + qs);
      == { UnparseLits(s[1..], qs); }
        [s[0]] + (s[1..] + Unparse(qs));
      == { assert s == [s[0]] + s[1..]; }
        s + Unparse(qs);
      }
    }
  }

  // ---------------------------------------------------------------------
  // Consequences for `Format`.
  // ---------------------------------------------------------------------

  /** `format` succeeds exactly when the template scans and every field it
      names is in the context. */
  lemma FormatDefinedIff(t: string, ctx: map<string, string>)
    ensures Format(t, ctx).Some?
        <==> Parse(t).Some? && Fields(Parse(t).value) <= ctx.Keys
  {
  }

  /** Keys of the context that no field names are ignored: extending a
      context under which `format` succeeds changes nothing. */
  lemma FormatIgnoresExtraKeys(t: string, ctx: map<string, string>, more: map<string, string>)
    requires Format(t, ctx).Some?
    requires forall k :: k in ctx ==> k in more && more[k] == ctx[k]
    ensures Format(t, more) == Format(t, ctx)
  {
    SubstituteAgrees(Parse(t).value, ctx, more);
  }

  /** A template without braces formats to itself under any context. */
  lemma FormatPlainText(s: string, ctx: map<string, string>)
    requires BraceFree(s)
    ensures Format(s, ctx) == Some(s)
  {
    var ps := Lits(s) + [];
    assert ps == Lits(s);
    UnparseLits(s, []);
    ParseUnparse(ps);
    SubstituteLits(s, [], ctx);
    assert s + "" == s;
  }

  lemma UnparseOneField(p: string, k: string)
    requires BraceFree(p)
    ensures Unparse(Lits(p) + [Field(k)]) == p + "{" + k + "}"
  {
    var f := [Field(k)];
    UnparseLits(p, f);
    assert Unparse(f) == "{" + k + "}" by {
      assert f[1..] == [];
    }
    AppendAssoc(p, "{" + k, "}");
    AppendAssoc(p, "{", k);
  }

  lemma AppendAssoc(a: string, b: string, c: string)
    ensures a + (b + c) == (a + b) + c
  {
  }

  /** `ps` is the text `p`, one literal piece per character, followed by
      the single field `{k}`. */
  predicate TextThenField(ps: seq<Piece>, p: string, k: string) {
    |ps| == |p| + 1 && ps[|p|] == Field(k)
    && forall i :: 0 <= i < |p| ==> ps[i] == Lit(p[i])
  }

  /** The pieces of a text followed by one field `{k}`. */
  lemma OneFieldPieces(p: string, k: string)
    ensures TextThenField(Lits(p) + [Field(k)], p, k)
    ensures Fields(Lits(p) + [Field(k)]) == {k}
    ensures Plain(k) ==> WellFormed(Lits(p) + [Field(k)])
  {
    FieldsLits(p, [Field(k)]);
    assert Fields([Field(k)]) == {k} + Fields([]);
  }

  lemma ParseOneField(p: string, k: string)
    requires BraceFree(p) && Plain(k)
    ensures Parse(p + "{" + k + "}") == Some(Lits(p) + [Field(k)])
  {
    UnparseOneField(p, k);
    FieldsLits(p, [Field(k)]);
    ParseUnparse(Lits(p) + [Field(k)]);
  }

  lemma SubstituteOneField(p: string, k: string, ctx: map<string, string>)
    ensures Substitute(Lits(p) + [Field(k)], ctx)
         == if k in ctx then Some(p + ctx[k]) else None
  {
    assert Substitute([Field(k)], ctx) == if k in ctx then Some(ctx[k] + "") else None;
    SubstituteLits(p, [Field(k)], ctx);
    if k in ctx {
      assert ctx[k] + "" == ctx[k];
    }
  }

  /** A brace-free prefix followed by one plain field `{k}`: the result is
      the prefix followed by `ctx[k]`, or failure when `k` is missing. */
  lemma FormatOneField(p: string, k: string, ctx: map<string, string>)
    requires BraceFree(p)
    requires Plain(k)
    ensures Format(p + "{" + k + "}", ctx)
         == if k in ctx then Some(p + ctx[k]) else None
  {
    ParseOneField(p, k);
    SubstituteOneField(p, k, ctx);
  }
}
