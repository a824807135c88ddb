/** Shared values: the identity, Go error chains, and small container types. */
module Domain {

  datatype Option<+T> = None | Some(value: T)

  datatype Result<+T, +E> = Success(value: T) | Failure(error: E)

  /** The runtime identity: Authorization header value, device id and visitor id. */
  datatype AuthState = AuthState(token: string, did: string, visitorID: string) {
    predicate Empty() { token == "" && did == "" && visitorID == "" }

    predicate Complete() { token != "" && did != "" && visitorID != "" }
  }

  const NoAuth := AuthState("", "", "")

  type NonEmptyString = s: string | s != "" witness "x"

  // ------------------------------------------------------------- error chains

  /** What a protocol, login or browse sentinel error stands for. */
  datatype Kind = AuthFailed | HTTPStatus | Business | TOTPRequired | RequestBuild

  /** The package-level error values that errors.Is compares against. */
  datatype Sentinel =
    | Canceled                // context.Canceled
    | DeadlineExceeded        // context.DeadlineExceeded
    | Proto(kind: Kind)       // mtproto.Err*
    | AuthKit(kind: Kind)     // apimtauth.Err*
    | BrowseKit(kind: Kind)   // apimtbrowse.Err*
    | Opaque                  // any error of a library or of the operating system

  /** The stable business codes of internal/domain/errno.go that a run can return. */
  datatype Code =
    | ConfigInvalid
    | MTAuthFailed
    | MTHTTPStatus
    | MTBusinessFailed
    | MTRequestBuildFailed
    | MTTOTPRequired
    | RefreshIdentityChanged
    | RefreshIdentityResetFailed

  /** An error chain: a sentinel, fmt.Errorf with %w, or a coded domain error with a cause. */
  datatype Error =
    | Leaf(sentinel: Sentinel)
    | Wrap(cause: Error)
    | Coded(code: Code, cause: Error)
  {
    /** errors.Is against a package-level error value. */
    predicate Is(s: Sentinel) {
      match this
      case Leaf(t) => t == s
      case Wrap(e) => e.Is(s)
      case Coded(_, e) => e.Is(s)
    }

    /** errors.Is against a domain error template, which compares codes only. */
    predicate IsCode(c: Code) {
      match this
      case Leaf(_) => false
      case Wrap(e) => e.IsCode(c)
      case Coded(d, e) => d == c || e.IsCode(c)
    }

    /** True when no protocol, kit or domain error occurs anywhere in the chain. */
    predicate Foreign() {
      match this
      case Leaf(s) => s.Canceled? || s.DeadlineExceeded? || s.Opaque?
      case Wrap(e) => e.Foreign()
      case Coded(_, _) => false
    }
  }

  /** Errors that come from outside: transport, disk, random source, TOTP decoding. */
  type ForeignError = e: Error | e.Foreign() witness Leaf(Opaque)

  lemma {:induction false} ForeignCarriesNothing(e: Error, s: Sentinel, c: Code)
    requires e.Foreign()
    ensures !e.IsCode(c)
    ensures s.Proto? || s.AuthKit? || s.BrowseKit? ==> !e.Is(s)
  {
    match e
    case Leaf(_) =>
    case Wrap(f) => ForeignCarriesNothing(f, s, c);
    case Coded(_, _) =>
  }

  /** The phases of the forum walk wrap an error with %w any number of times. */
  function WrapTimes(e: Error, n: nat): Error {
    if n == 0 then e else Wrap(WrapTimes(e, n - 1))
  }

  lemma {:induction false} WrapKeepsMatches(e: Error, n: nat, s: Sentinel, c: Code)
    ensures WrapTimes(e, n).Is(s) == e.Is(s)
    ensures WrapTimes(e, n).IsCode(c) == e.IsCode(c)
  {
    if n > 0 { WrapKeepsMatches(e, n - 1, s, c); }
  }

  // ------------------------------------------------------------------ headers

  datatype Header = Header(key: string, value: string)

  /** map lookup: the value of an exactly spelled key, or "". */
  function Lookup(headers: seq<Header>, key: string): string {
    if headers == [] then ""
    else if headers[0].key == key then headers[0].value
    else Lookup(headers[1..], key)
  }

  /** Lookup finds what stands under the key first, or nothing. */
  lemma {:induction false} LookupMeaning(headers: seq<Header>, key: string, k: nat)
    requires k <= |headers| && (forall j :: 0 <= j < k ==> headers[j].key != key)
    requires k < |headers| ==> headers[k].key == key
    ensures Lookup(headers, key) == if k < |headers| then headers[k].value else ""
  {
    if k > 0 {
      assert forall j :: 0 <= j < k - 1 ==> headers[1..][j] == headers[j + 1];
      LookupMeaning(headers[1..], key, k - 1);
    }
  }

  /** Simple case folding onto ASCII: the long s and the Kelvin sign fold to letters too. */
  function FoldChar(c: char): char {
    if 'A' <= c <= 'Z' then (c as int + 32) as char
    else if c == '\U{17F}' then 's'
    else if c == '\U{212A}' then 'k'
    else c
  }

  function Fold(s: string): (r: string)
    ensures |r| == |s|
  {
    seq(|s|, i requires 0 <= i < |s| => FoldChar(s[i]))
  }

  /** strings.EqualFold, for comparing with an ASCII string. */
  predicate EqualFold(a: string, b: string) { Fold(a) == Fold(b) }

  function LowerChar(c: char): char {
    if 'A' <= c <= 'Z' then (c as int + 32) as char
    else if c == '\U{130}' then 'i'
    else if c == '\U{212A}' then 'k'
    else c
  }

  /** strings.ToLower, for searching an ASCII string in the result. */
  function ToLower(s: string): (r: string)
    ensures |r| == |s|
  {
    seq(|s|, i requires 0 <= i < |s| => LowerChar(s[i]))
  }

  predicate OccursAt(s: string, sub: string, i: nat) {
    i + |sub| <= |s| && s[i..i + |sub|] == sub
  }

  /** strings.Contains */
  predicate Contains(s: string, sub: string) {
    exists i: nat :: i <= |s| && OccursAt(s, sub, i)
  }
}
