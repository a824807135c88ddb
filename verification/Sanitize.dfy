/** Redaction of JSON bodies in logs: what the output can and cannot depend on. */
module Sanitize {
  import opened Domain

  const REDACTED := "[REDACTED]"

  const SENSITIVE_KEYS := {
    "access_token", "agent_secret", "agentsecret", "auth", "authorization", "bot_token", "corp_secret",
    "corpsecret", "did", "otp", "otpcode", "password", "proxy_authorization", "secret", "sign", "token",
    "visitorid", "visitor_id", "webhook_token", "x_api_key", "x_auth_token"
  }

  function Underscored(s: string): (r: string)
    ensures |r| == |s|
  {
    seq(|s|, i requires 0 <= i < |s| => if s[i] == '-' || s[i] == '.' then '_' else s[i])
  }

  /** isSensitiveKey */
  predicate IsSensitiveKey(key: string) {
    var normalized := Underscored(ToLower(key));
    || normalized in SENSITIVE_KEYS
    || Contains(normalized, "password") || Contains(normalized, "secret")
    || Contains(normalized, "token") || Contains(normalized, "auth")
  }

  /** A decoded JSON value; Scalar stands for null, booleans and numbers. */
  datatype Value = Scalar(text: string) | Text(text: string) | Arr(items: seq<Value>) | Obj(fields: seq<Field>)

  datatype Field = Field(key: string, value: Value)

  /** sanitizeJSONValue, as the value it leaves behind. */
  function Clean(v: Value): Value {
    match v
    case Arr(items) => Arr(seq(|items|, i requires 0 <= i < |items| => Clean(items[i])))
    case Obj(fields) => Obj(seq(|fields|, i requires 0 <= i < |fields| => CleanField(fields[i])))
    case _ => v
  }

  function CleanField(f: Field): Field {
    if IsSensitiveKey(f.key) then f.(value := Text(REDACTED)) else f.(value := Clean(f.value))
  }

  /** Equal but for what stands under sensitive keys. */
  predicate Alike(v: Value, w: Value) {
    match (v, w)
    case (Arr(a), Arr(b)) => |a| == |b| && forall i :: 0 <= i < |a| ==> Alike(a[i], b[i])
    case (Obj(a), Obj(b)) => |a| == |b| && forall i :: 0 <= i < |a| ==> AlikeField(a[i], b[i])
    case (_, _) => v == w
  }

  predicate AlikeField(f: Field, g: Field) {
    f.key == g.key && (IsSensitiveKey(f.key) || Alike(f.value, g.value))
  }

  lemma ItemsAlike(a: seq<Value>, b: seq<Value>)
    requires |a| == |b| ==> forall i :: 0 <= i < |a| ==> (Clean(a[i]) == Clean(b[i]) <==> Alike(a[i], b[i]))
    ensures Clean(Arr(a)) == Clean(Arr(b)) <==> Alike(Arr(a), Arr(b))
  {
    var x, y := Clean(Arr(a)).items, Clean(Arr(b)).items;
    assert |x| == |a| && |y| == |b|;
    if |a| == |b| {
      assert forall i :: 0 <= i < |a| ==> x[i] == Clean(a[i]) && y[i] == Clean(b[i]);
      assert x == y <==> forall i :: 0 <= i < |a| ==> x[i] == y[i];
    }
  }

  lemma FieldsAlike(a: seq<Field>, b: seq<Field>)
    requires |a| == |b| ==> forall i :: 0 <= i < |a| ==> (CleanField(a[i]) == CleanField(b[i]) <==> AlikeField(a[i], b[i]))
    ensures Clean(Obj(a)) == Clean(Obj(b)) <==> Alike(Obj(a), Obj(b))
  {
    var x, y := Clean(Obj(a)).fields, Clean(Obj(b)).fields;
    assert |x| == |a| && |y| == |b|;
    if |a| == |b| {
      assert forall i :: 0 <= i < |a| ==> x[i] == CleanField(a[i]) && y[i] == CleanField(b[i]);
      assert x == y <==> forall i :: 0 <= i < |a| ==> x[i] == y[i];
    }
  }

  /** Two bodies are logged alike exactly when they are equal but for what stands under
      sensitive keys: the log shows nothing of that, and everything else. */
  lemma {:induction false} LogsAllButSecrets(v: Value, w: Value)
    ensures Clean(v) == Clean(w) <==> Alike(v, w)
  {
    match (v, w)
    case (Arr(a), Arr(b)) => {
      forall i | 0 <= i < |a| && i < |b| ensures Clean(a[i]) == Clean(b[i]) <==> Alike(a[i], b[i]) { LogsAllButSecrets(a[i], b[i]); }
      ItemsAlike(a, b);
    }
    case (Obj(a), Obj(b)) => {
      forall i | 0 <= i < |a| && i < |b| ensures CleanField(a[i]) == CleanField(b[i]) <==> AlikeField(a[i], b[i]) {
        LogsAllButSecrets(a[i].value, b[i].value);
      }
      FieldsAlike(a, b);
    }
    case (_, _) =>
  }

  /** The redacted body is itself equal to the original but for the secrets, so redacting again
      changes nothing, and keys, order and shape are preserved. */
  lemma {:induction false} CleanIsAlike(v: Value)
    ensures Alike(Clean(v), v)
    ensures Clean(Clean(v)) == Clean(v)
  {
    match v {
      case Arr(a) => forall i | 0 <= i < |a| ensures Alike(Clean(a[i]), a[i]) { CleanIsAlike(a[i]); }
      case Obj(a) => forall i | 0 <= i < |a| ensures AlikeField(CleanField(a[i]), a[i]) { CleanIsAlike(a[i].value); }
      case _ =>
    }
    LogsAllButSecrets(Clean(v), v);
  }
}
