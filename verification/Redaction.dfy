/** Masking secrets in JSON before it is logged. */
module Redaction {
  import opened Wrappers
  import opened Text

  datatype Scalar = Null | Bool(b: bool) | Number(n: real) | Text(s: string)

  datatype Json = Scalar(value: Scalar) | Array(items: seq<Json>) | Object(fields: map<string, Json>)

  const MASK: Json := Scalar(Text("[REDACTED]"))

  const SENSITIVE: seq<string> := [
    "authorization", "code", "token", "access_token", "refresh_token", "ward_draft_secret", "draft_secret",
    "draft_secret_challenge", "ward_secret", "tls_key", "tls_cert", "jwt_signing_secret"]

  predicate Sensitive(key: string) {
    ToLower(TrimSpace(key)) in SENSITIVE
  }

  function Redact(j: Json): Json {
    match j
    case Scalar(_) => j
    case Array(items) => Array(seq(|items|, i requires 0 <= i < |items| => Redact(items[i])))
    case Object(fields) => Object(map k | k in fields :: if Sensitive(k) then MASK else Redact(fields[k]))
  }

  /** The trees differ at most beneath sensitive keys. */
  predicate Agree(a: Json, b: Json) {
    match a
    case Scalar(_) => a == b
    case Array(items) => b.Array? && |b.items| == |items| && forall i :: 0 <= i < |items| ==> Agree(items[i], b.items[i])
    case Object(fields) =>
      b.Object? && b.fields.Keys == fields.Keys
      && forall k :: k in fields && !Sensitive(k) ==> Agree(fields[k], b.fields[k])
  }

  /** What is logged of two trees is the same exactly when they differ only beneath sensitive keys. */
  lemma {:induction false} RedactionHidesExactly(a: Json, b: Json)
    ensures Redact(a) == Redact(b) <==> Agree(a, b)
    decreases a
  {
    match a
    case Scalar(_) =>
    case Array(items) =>
      if b.Array? && |b.items| == |items| {
        forall i | 0 <= i < |items| ensures Redact(items[i]) == Redact(b.items[i]) <==> Agree(items[i], b.items[i]) {
          RedactionHidesExactly(items[i], b.items[i]);
        }
        assert forall i :: 0 <= i < |items| ==> Redact(a).items[i] == Redact(items[i]) && Redact(b).items[i] == Redact(b.items[i]);
      }
      assert b.Array? ==> |Redact(b).items| == |b.items|;
    case Object(fields) =>
      if b.Object? && b.fields.Keys == fields.Keys {
        forall k | k in fields && !Sensitive(k) ensures Redact(fields[k]) == Redact(b.fields[k]) <==> Agree(fields[k], b.fields[k]) {
          RedactionHidesExactly(fields[k], b.fields[k]);
        }
        ObjectsEqual(fields, b.fields);
      }
      assert Redact(a).fields.Keys == fields.Keys;
      assert b.Object? ==> Redact(b).fields.Keys == b.fields.Keys;
  }

  lemma FieldsOfRedacted(f: map<string, Json>)
    ensures var r := Redact(Object(f));
            r.Object? && r.fields.Keys == f.Keys
            && forall k :: k in f ==> r.fields[k] == if Sensitive(k) then MASK else Redact(f[k])
  {
  }

  lemma ObjectsEqual(f: map<string, Json>, g: map<string, Json>)
    requires f.Keys == g.Keys
    ensures Redact(Object(f)) == Redact(Object(g)) <==> forall k :: k in f && !Sensitive(k) ==> Redact(f[k]) == Redact(g[k])
  {
    FieldsOfRedacted(f);
    FieldsOfRedacted(g);
    var hidden := set k | k in f && Sensitive(k);
    MaskedEqual(f, g, Redact(Object(f)).fields, Redact(Object(g)).fields, hidden);
  }

  lemma MaskedEqual(f: map<string, Json>, g: map<string, Json>, a: map<string, Json>, b: map<string, Json>, hidden: set<string>)
    requires f.Keys == g.Keys == a.Keys == b.Keys
    requires forall k :: k in f ==> a[k] == (if k in hidden then MASK else Redact(f[k]))
    requires forall k :: k in f ==> b[k] == (if k in hidden then MASK else Redact(g[k]))
    ensures a == b <==> forall k :: k in f && k !in hidden ==> Redact(f[k]) == Redact(g[k])
  {
  }

  lemma {:induction false} RedactIdempotent(j: Json)
    ensures Redact(Redact(j)) == Redact(j)
    decreases j
  {
    match j
    case Scalar(_) =>
    case Array(items) =>
      forall i | 0 <= i < |items| ensures Redact(Redact(items[i])) == Redact(items[i]) {
        RedactIdempotent(items[i]);
      }
    case Object(fields) =>
      forall k | k in fields && !Sensitive(k) ensures Redact(Redact(fields[k])) == Redact(fields[k]) {
        RedactIdempotent(fields[k]);
      }
      ObjectsEqual(Redact(j).fields, fields);
  }

  // ---------------------------------------------------------------- which keys are sensitive

  /** The names kept out of logs. */
  predicate Secret(name: string) {
    || name == "authorization" || name == "code" || name == "token" || name == "access_token" || name == "refresh_token"
    || name == "ward_draft_secret" || name == "draft_secret" || name == "draft_secret_challenge" || name == "ward_secret"
    || name == "tls_key" || name == "tls_cert" || name == "jwt_signing_secret"
  }

  /** A key is sensitive exactly when it is one of these names in some case, with spaces around it at most. */
  lemma SensitiveExactly(key: string)
    ensures Sensitive(key) <==> Secret(ToLower(TrimSpace(key)))
  {
  }

  lemma SpellingsAreSensitive(before: string, spelled: string, after: string)
    requires All(before, Space) && All(after, Space) && spelled != "" && Bare(spelled, Space)
    ensures Sensitive(before + spelled + after) <==> Secret(ToLower(spelled))
  {
    TrimPad(before, spelled, after, Space);
    SensitiveExactly(before + spelled + after);
  }

  /** What a member of an object becomes. */
  lemma MembersExactly(fields: map<string, Json>, k: string)
    requires k in fields
    ensures var r := Redact(Object(fields));
            && r.Object? && r.fields.Keys == fields.Keys
            && (Secret(ToLower(TrimSpace(k))) ==> r.fields[k] == Scalar(Text("[REDACTED]")))
            && (!Secret(ToLower(TrimSpace(k))) && fields[k].Scalar? ==> r.fields[k] == fields[k])
  {
    SensitiveExactly(k);
  }

  // ---------------------------------------------------------------- paths

  datatype Edge = Key(k: string) | Item(i: nat)

  function Child(j: Json, e: Edge): Option<Json> {
    match e
    case Key(k) => if j.Object? && k in j.fields then Some(j.fields[k]) else None
    case Item(i) => if j.Array? && i < |j.items| then Some(j.items[i]) else None
  }

  function Get(j: Json, path: seq<Edge>): Option<Json> {
    if path == [] then Some(j)
    else
      var c := Child(j, path[0]);
      if c.None? then None else Get(c.value, path[1..])
  }

  predicate Hidden(e: Edge) {
    e.Key? && Sensitive(e.k)
  }

  predicate Clear(path: seq<Edge>) {
    path == [] || (!Hidden(path[0]) && Clear(path[1..]))
  }

  lemma ChildOfRedacted(j: Json, e: Edge)
    ensures Child(Redact(j), e) ==
            if Child(j, e).None? then None
            else if Hidden(e) then Some(MASK)
            else Some(Redact(Child(j, e).value))
  {
  }

  /** A path without sensitive keys leads to the redacted form of what it led to, or nowhere as before. */
  lemma {:induction false} ClearPathsKept(j: Json, path: seq<Edge>)
    requires Clear(path)
    ensures Get(Redact(j), path) == if Get(j, path).Some? then Some(Redact(Get(j, path).value)) else None
    decreases |path|
  {
    if path != [] {
      ChildOfRedacted(j, path[0]);
      if Child(j, path[0]).Some? {
        ClearPathsKept(Child(j, path[0]).value, path[1..]);
      }
    }
  }

  /** One with a sensitive key leads to the mask if that key is its end, and nowhere otherwise. */
  lemma {:induction false} HiddenPathsMasked(j: Json, path: seq<Edge>)
    requires !Clear(path)
    ensures Get(Redact(j), path) == None || (Get(Redact(j), path) == Some(MASK) && Hidden(path[|path| - 1]))
    decreases |path|
  {
    ChildOfRedacted(j, path[0]);
    if Hidden(path[0]) {
      if Child(j, path[0]).Some? && path[1..] != [] {
        assert Child(MASK, path[1..][0]).None?;
      }
    } else if Child(j, path[0]).Some? {
      HiddenPathsMasked(Child(j, path[0]).value, path[1..]);
    }
  }

  // ---------------------------------------------------------------- the method

  method RedactJSON(value: Json) returns (out: Json)
    ensures out == Redact(value)
    decreases value
  {
    match value
    case Object(fields) =>
      var masked := RedactFields(value, fields);
      return Object(masked);
    case Array(items) =>
      var masked := [];
      for i := 0 to |items|
        invariant |masked| == i && forall k :: 0 <= k < i ==> masked[k] == Redact(items[k])
      {
        var item := RedactJSON(items[i]);
        masked := masked + [item];
      }
      assert masked == Redact(value).items;
      return Array(masked);
    case Scalar(_) => return value;
  }

  method RedactFields(ghost value: Json, fields: map<string, Json>) returns (masked: map<string, Json>)
    requires value == Object(fields)
    ensures masked == Redact(value).fields
    decreases value, 0
  {
    masked := map[];
    var keys := fields.Keys;
    while keys != {}
      invariant keys <= fields.Keys && masked.Keys == fields.Keys - keys
      invariant forall k :: k in masked ==> masked[k] == if Sensitive(k) then MASK else Redact(fields[k])
      decreases |keys|
    {
      var key :| key in keys;
      keys := keys - {key};
      if Sensitive(key) {
        masked := masked[key := MASK];
      } else {
        var nested := RedactJSON(fields[key]);
        masked := masked[key := nested];
      }
    }
  }
}
