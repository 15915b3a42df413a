/**
 * The API-version middleware: HTTP responses under `/v1/` gain a version header, a
 * deprecation date and a warning (warn-code 299, the miscellaneous persistent warning of
 * section 5.5 of RFC 7234, with a single-quoted warn-text); responses under `/v2/` gain a
 * version header only.  Only response-start messages change; every message is forwarded.
 * Header names and values are byte strings in the source and `string`s here.
 */
module Versioning {
  import opened Wrappers
  import Text

  type Header = (string, string)

  const ResponseStart := "http.response.start"

  /** The deprecation warning's value. */
  const DeprecationWarning := "299 - 'V1 API is deprecated. " + "Please migrate to /v2 endpoints.'"

  /** The headers appended to a response start for a request path. */
  function VersionHeaders(path: string): (r: seq<Header>)
    ensures Text.StartsWith(path, "/v1/") ==> r == [
      ("x-api-version", "1.0"), ("x-api-deprecation-date", "2026-12-31"), ("warning", DeprecationWarning)]
    ensures !Text.StartsWith(path, "/v1/") && Text.StartsWith(path, "/v2/") ==> r == [("x-api-version", "2.0")]
    ensures !Text.StartsWith(path, "/v1/") && !Text.StartsWith(path, "/v2/") ==> r == []
  {
    if Text.StartsWith(path, "/v1/") then
      [("x-api-version", "1.0"), ("x-api-deprecation-date", "2026-12-31"), ("warning", DeprecationWarning)]
    else if Text.StartsWith(path, "/v2/") then [("x-api-version", "2.0")]
    else []
  }

  /** An ASGI message as the inner application sends it: its type and optional header list. */
  class AsgiMessage {
    var kind: string
    var headers: Option<seq<Header>>

    constructor (kind: string, headers: Option<seq<Header>>)
      ensures this.kind == kind && this.headers == headers
    {
      this.kind := kind;
      this.headers := headers;
    }
  }

  /** The server side of `send`: the messages it has received, in order. */
  class Downstream {
    var sent: seq<AsgiMessage>

    constructor ()
      ensures sent == []
    {
      sent := [];
    }

    method Send(m: AsgiMessage)
      modifies this
      ensures sent == old(sent) + [m]
    {
      sent := sent + [m];
    }
  }

  /** What `send_wrapper` leaves in a message's header list. */
  function Rewritten(path: string, kind: string, headers: Option<seq<Header>>): Option<seq<Header>>
  {
    if kind == ResponseStart then Some(headers.GetOr([]) + VersionHeaders(path)) else headers
  }

  /**
   * `send_wrapper(message)`: a response start gets its header list (created empty when
   * missing) extended in place; then the message is forwarded.
   */
  method SendWrapper(path: string, m: AsgiMessage, down: Downstream)
    modifies m, down
    ensures m.kind == old(m.kind)
    ensures m.headers == Rewritten(path, old(m.kind), old(m.headers))
    ensures down.sent == old(down.sent) + [m]
  {
    if m.kind == ResponseStart {
      var hs := if m.headers.Some? then m.headers.value else [];
      m.headers := Some(hs);
      var extra := VersionHeaders(path);
      var i := 0;
      assert hs + extra[..0] == hs;
      while i < |extra|
        invariant 0 <= i <= |extra|
        invariant m.headers == Some(hs + extra[..i])
        invariant m.kind == old(m.kind) && down.sent == old(down.sent)
      {
        assert hs + extra[..i + 1] == (hs + extra[..i]) + [extra[i]];
        m.headers := Some(m.headers.value + [extra[i]]);
        i := i + 1;
      }
      assert extra[..i] == extra;
    }
    down.Send(m);
  }

  /** A message's header list after `send_wrapper` has seen the same message `n` times. */
  function RewrittenTimes(path: string, kind: string, headers: Option<seq<Header>>, n: nat): Option<seq<Header>>
  {
    if n == 0 then headers else Rewritten(path, kind, RewrittenTimes(path, kind, headers, n - 1))
  }

  /** `n` copies of `s`, one after the other. */
  function Repeat<T>(s: seq<T>, n: nat): (r: seq<T>)
    ensures |r| == n * |s|
  {
    if n == 0 then [] else Repeat(s, n - 1) + s
  }

  /**
   * A response start that passes through `send_wrapper` `n` times carries its original
   * headers followed by `n` copies of the version headers; other messages keep theirs.
   */
  lemma {:induction false} RewrittenTimesShape(path: string, kind: string, headers: Option<seq<Header>>, n: nat)
    ensures kind != ResponseStart ==> RewrittenTimes(path, kind, headers, n) == headers
    ensures kind == ResponseStart && n > 0 ==>
      RewrittenTimes(path, kind, headers, n) == Some(headers.GetOr([]) + Repeat(VersionHeaders(path), n))
  {
    if n > 0 {
      RewrittenTimesShape(path, kind, headers, n - 1);
      var h := headers.GetOr([]);
      var v := VersionHeaders(path);
      if kind == ResponseStart && n > 1 {
        assert h + Repeat(v, n - 1) + v == h + Repeat(v, n);
      } else if kind == ResponseStart {
        assert Repeat(v, 1) == [] + v == v;
      }
    }
  }

  /** A `/v1/` response start sent twice by the inner application gets the three headers twice. */
  lemma SentTwiceHeadersTwice(path: string, headers: Option<seq<Header>>)
    requires Text.StartsWith(path, "/v1/")
    ensures |RewrittenTimes(path, ResponseStart, headers, 2).value| == |headers.GetOr([])| + 6
  {
    RewrittenTimesShape(path, ResponseStart, headers, 2);
  }

  datatype Scope = Scope(kind: string, path: Option<string>)

  /**
   * `__call__(scope, receive, send)` while the inner application sends the messages
   * `emitted`: a non-HTTP scope reaches the inner application with the original `send`, so
   * nothing is changed; an HTTP scope routes every message through `send_wrapper` with the
   * scope's path (empty when absent).  One message object sent several times is rewritten
   * in place each time.
   */
  method Call(scope: Scope, emitted: seq<AsgiMessage>, down: Downstream)
    modifies (set m | m in emitted), down
    ensures down.sent == old(down.sent) + emitted
    ensures forall m :: m in emitted ==> m.kind == old(m.kind)
    ensures scope.kind != "http" ==> forall m :: m in emitted ==> m.headers == old(m.headers)
    ensures scope.kind == "http" ==> forall m :: m in emitted ==>
      m.headers == RewrittenTimes(scope.path.GetOr(""), old(m.kind), old(m.headers), multiset(emitted)[m])
  {
    if scope.kind != "http" {
      var i := 0;
      while i < |emitted|
        invariant 0 <= i <= |emitted|
        invariant down.sent == old(down.sent) + emitted[..i]
        invariant forall m :: m in emitted ==> m.kind == old(m.kind) && m.headers == old(m.headers)
      {
        down.Send(emitted[i]);
        i := i + 1;
      }
      assert emitted[..i] == emitted;
      return;
    }
    var path := scope.path.GetOr("");
    var i := 0;
    while i < |emitted|
      invariant 0 <= i <= |emitted|
      invariant down.sent == old(down.sent) + emitted[..i]
      invariant forall m :: m in emitted ==> m.kind == old(m.kind)
      invariant forall m :: m in emitted ==>
        m.headers == RewrittenTimes(path, old(m.kind), old(m.headers), multiset(emitted[..i])[m])
    {
      assert emitted[..i + 1] == emitted[..i] + [emitted[i]];
      SendWrapper(path, emitted[i], down);
      i := i + 1;
    }
    assert emitted[..i] == emitted;
  }

  /** A message the inner application sends once is rewritten once. */
  lemma SentOnce(path: string, kind: string, headers: Option<seq<Header>>)
    ensures RewrittenTimes(path, kind, headers, 1) == Rewritten(path, kind, headers)
  {
  }

  /** A bare "/v1" and the unversioned root routes get no version headers. */
  lemma UnversionedPaths()
    ensures VersionHeaders("/v1") == []
    ensures VersionHeaders("/predict/image") == []
  {
    assert !Text.StartsWith("/v1", "/v1/");
    assert !Text.StartsWith("/v1", "/v2/");
    assert !Text.StartsWith("/predict/image", "/v1/") by {
      assert "/predict/image"[1] != "/v1/"[1];
    }
    assert !Text.StartsWith("/predict/image", "/v2/") by {
      assert "/predict/image"[1] != "/v2/"[1];
    }
  }

  /** Every versioned response carries exactly one version header, existing headers first. */
  lemma OneVersionHeader(path: string, old_headers: seq<Header>)
    requires Text.StartsWith(path, "/v1/") || Text.StartsWith(path, "/v2/")
    ensures var hs := Rewritten(path, ResponseStart, Some(old_headers)).value;
      hs[..|old_headers|] == old_headers &&
      |hs| > |old_headers| && hs[|old_headers|].0 == "x-api-version"
  {
  }
}
