/** The part of Python's `str.format` the renderers rely on: named fields
    `{name}` replaced from a context, and `{{` / `}}` standing for literal
    braces. */
module TextFormat {
  import opened Values

  /** Position of the first '}' at or after `i`. */
  function CloseBrace(t: string, i: nat): (r: Option<nat>)
    requires i <= |t|
    ensures r.Some? ==> i <= r.value < |t| && t[r.value] == '}'
    ensures r.Some? ==> forall j :: i <= j < r.value ==> t[j] != '}'
    ensures r.None? ==> forall j :: i <= j < |t| ==> t[j] != '}'
    decreases |t| - i
  {
    if i == |t| then None
    else if t[i] == '}' then Some(i)
    else CloseBrace(t, i + 1)
  }

  /** `t.format(**ctx)`. */
  function Format(t: string, ctx: map<string, string>): Result<string>
    decreases |t|
  {
    if t == [] then Ok([])
    else if t[0] == '{' then
      if |t| > 1 && t[1] == '{' then
        var rest :- Format(t[2..], ctx);
        Ok("{" + rest)
      else
        match CloseBrace(t, 1)
        case None => Err(ValueError("Single '{' encountered in format string"))
        case Some(j) =>
          var field := t[1..j];
          if '{' in field then Err(ValueError("unexpected '{' in field name"))
          else if field !in ctx then Err(KeyError(field))
          else
            var rest :- Format(t[j + 1..], ctx);
            Ok(ctx[field] + rest)
    else if t[0] == '}' then
      if |t| > 1 && t[1] == '}' then
        var rest :- Format(t[2..], ctx);
        Ok("}" + rest)
      else Err(ValueError("Single '}' encountered in format string"))
    else
      var rest :- Format(t[1..], ctx);
      Ok([t[0]] + rest)
  }

  predicate Plain(t: string) {
    '{' !in t && '}' !in t
  }

  /** Text without braces is left as it is, whatever the context. */
  lemma {:induction false} FormatPlain(t: string, ctx: map<string, string>)
    requires Plain(t)
    ensures Format(t, ctx) == Ok(t)
    decreases |t|
  {
    if t != [] {
      assert Plain(t[1..]) by {
        forall c | c in t[1..] ensures c != '{' && c != '}' { assert c in t; }
      }
      FormatPlain(t[1..], ctx);
      assert [t[0]] + t[1..] == t;
    }
  }

  /** A plain prefix is copied and the rest of the text is formatted. */
  lemma {:induction false} FormatPlainPrefix(p: string, t: string, ctx: map<string, string>)
    requires Plain(p)
    ensures Format(p + t, ctx) == (match Format(t, ctx) case Ok(s) => Ok(p + s) case Err(e) => Err(e))
    decreases |p|
  {
    if p != [] {
      assert Plain(p[1..]) by {
        forall c | c in p[1..] ensures c != '{' && c != '}' { assert c in p; }
      }
      assert p[0] in p;
      assert (p + t)[0] == p[0];
      assert (p + t)[1..] == p[1..] + t;
      FormatPlainPrefix(p[1..], t, ctx);
      match Format(t, ctx)
      case Ok(s) =>
        assert Format(p + t, ctx) == Ok([p[0]] + (p[1..] + s));
        assert [p[0]] + (p[1..] + s) == p + s;
      case Err(e) =>
    } else {
      assert p + t == t;
      match Format(t, ctx)
      case Ok(s) => assert p + s == s;
      case Err(e) =>
    }
  }

  /** A single field whose name is known is replaced by its value, and the
      rest of the text formatted after it. */
  lemma FormatField(k: string, t: string, ctx: map<string, string>)
    requires Plain(k) && k in ctx
    ensures Format("{" + k + "}" + t, ctx) ==
      (match Format(t, ctx) case Ok(s) => Ok(ctx[k] + s) case Err(e) => Err(e))
  {
    var w := "{" + k + "}" + t;
    assert w[0] == '{';
    assert |k| + 1 < |w| && w[|k| + 1] == '}';
    forall j | 1 <= j < |k| + 1 ensures w[j] != '}' {
      assert w[j] == k[j - 1];
    }
    assert CloseBrace(w, 1) == Some(|k| + 1);
    assert w[1..|k| + 1] == k;
    assert w[|k| + 2..] == t;
    if |k| > 0 {
      assert w[1] == k[0];
    }
  }

  /** A field missing from the context raises KeyError naming it. */
  lemma FormatMissingField(k: string, t: string, ctx: map<string, string>)
    requires Plain(k) && k !in ctx
    ensures Format("{" + k + "}" + t, ctx) == Err(KeyError(k))
  {
    var w := "{" + k + "}" + t;
    assert w[0] == '{';
    assert |k| + 1 < |w| && w[|k| + 1] == '}';
    forall j | 1 <= j < |k| + 1 ensures w[j] != '}' {
      assert w[j] == k[j - 1];
    }
    assert CloseBrace(w, 1) == Some(|k| + 1);
    assert w[1..|k| + 1] == k;
    if |k| > 0 {
      assert w[1] == k[0];
    }
  }

  /** A template with one known field between plain texts is the field's
      value between those texts. */
  lemma FormatOneField(before: string, k: string, after: string, ctx: map<string, string>)
    requires Plain(before) && Plain(k) && Plain(after) && k in ctx
    ensures Format(before + "{" + k + "}" + after, ctx) == Ok(before + ctx[k] + after)
  {
    var field := "{" + k + "}" + after;
    var value := ctx[k] + after;
    FormatPlain(after, ctx);
    FormatField(k, after, ctx);
    assert Format(field, ctx) == Ok(value);
    FormatPlainPrefix(before, field, ctx);
    assert Format(before + field, ctx) == Ok(before + value);
    AppendAssoc(before, "{", k);
    AppendAssoc(before, "{" + k, "}");
    AppendAssoc(before, "{" + k + "}", after);
    assert before + value == before + ctx[k] + after;
  }

  /** The replacement field for the name `k`. */
  function Placeholder(k: string): string {
    "{" + k + "}"
  }

  /** A replacement field alone is replaced by its value. */
  lemma FormatPlaceholder(k: string, ctx: map<string, string>)
    requires Plain(k) && k in ctx
    ensures Format(Placeholder(k), ctx) == Ok(ctx[k])
  {
    FormatField(k, "", ctx);
    assert Placeholder(k) + "" == Placeholder(k);
    assert ctx[k] + "" == ctx[k];
  }

  /** The first '}' from `i` on is found in `a` alone when `a` has one. */
  lemma CloseBraceAppend(a: string, b: string, i: nat)
    requires i <= |a| && CloseBrace(a, i).Some?
    ensures CloseBrace(a + b, i) == CloseBrace(a, i)
    decreases |a| - i
  {
    if a[i] != '}' {
      CloseBraceAppend(a, b, i + 1);
    }
  }

  /** A text that formats on its own formats the same way in front of any
      other: its fields and escaped braces never reach into what follows. */
  lemma {:induction false} FormatAppend(a: string, b: string, ctx: map<string, string>)
    requires Format(a, ctx).Ok?
    ensures Format(a + b, ctx) ==
      (match Format(b, ctx) case Ok(y) => Ok(Format(a, ctx).value + y) case Err(e) => Err(e))
    decreases |a|
  {
    var t := a + b;
    if a == [] {
      assert t == b;
      match Format(b, ctx)
      case Ok(y) => assert Format(a, ctx).value + y == y;
      case Err(e) =>
    } else if (a[0] == '{' || a[0] == '}') && |a| > 1 && a[1] == a[0] {
      assert t[0] == a[0] && t[1] == a[1] && t[2..] == a[2..] + b;
      FormatAppend(a[2..], b, ctx);
      match Format(b, ctx)
      case Ok(y) => AppendAssoc([a[0]], Format(a[2..], ctx).value, y);
      case Err(e) =>
    } else if a[0] == '{' {
      var j := CloseBrace(a, 1).value;
      CloseBraceAppend(a, b, 1);
      assert t[0] == '{' && |t| > 1 && t[1] == a[1];
      assert t[1..j] == a[1..j];
      assert t[j + 1..] == a[j + 1..] + b;
      FormatAppend(a[j + 1..], b, ctx);
      match Format(b, ctx)
      case Ok(y) => AppendAssoc(ctx[a[1..j]], Format(a[j + 1..], ctx).value, y);
      case Err(e) =>
    } else {
      assert t[0] == a[0] && t[1..] == a[1..] + b;
      FormatAppend(a[1..], b, ctx);
      match Format(b, ctx)
      case Ok(y) => AppendAssoc([a[0]], Format(a[1..], ctx).value, y);
      case Err(e) =>
    }
  }

  /** Plain text followed by a known field. */
  lemma PlainThenField(p: string, k: string, ctx: map<string, string>)
    requires Plain(p) && Plain(k) && k in ctx
    ensures Format(p + Placeholder(k), ctx) == Ok(p + ctx[k])
  {
    FormatPlain(p, ctx);
    FormatPlaceholder(k, ctx);
    FormatAppend(p, Placeholder(k), ctx);
  }
}
