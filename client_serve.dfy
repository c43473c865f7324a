/** `ClientServe`: collects what one APNS request needs (device token,
    certificate, headers, JSON body) through chainable setters and hands it
    to the HTTP transport for the sandbox or the production endpoint. */
module Client {
  import opened Php

  /** The certificate argument: one PEM file path, or a list of paths. */
  datatype Cert = Path(path: string) | Paths(paths: seq<string>)

  /** A header array as `setHeader` builds it: name => value, where the value
      is null (None) for a line that has no colon. */
  type HeaderArray = seq<Entry<Option<string>>>

  /** What `_build` passes to the HTTP client: the URL, the `headers`, `cert`
      and key-password options and the body. None is a property never set. */
  datatype Request = Request(
    url: string,
    headers: Option<HeaderArray>,
    cert: Option<string>,
    password: Option<string>,
    body: Option<string>)

  /** A TypeError raised by assigning to a typed property: PHP's `Error`,
      which a `catch (Exception ...)` does not catch. */
  datatype TypeError = TypeError(property: string)

  /** The transport's answer, handed back uninterpreted. */
  datatype Response = Response(status: int, headers: seq<Entry<string>>, body: string)

  /** A failure raised by the transport, with its message and code. */
  datatype TransportError = TransportError(message: string, code: int)

  /** The HTTP/2 POST of `_build`, which lies outside the model. */
  type Transport = Request -> Result<Response, TransportError>

  const SandboxPrefix := "https://api.sandbox.push.apple.com/3/device/"
  const ProductionPrefix := "https://api.push.apple.com/3/device/"

  /** The sandbox endpoint for a device token, appended verbatim. */
  function SandboxUrl(token: string): (url: string)
    ensures |url| == |SandboxPrefix| + |token|
    ensures url[..|SandboxPrefix|] == SandboxPrefix && url[|SandboxPrefix|..] == token
  {
    SandboxPrefix + token
  }

  /** The production endpoint for a device token, appended verbatim. */
  function ProductionUrl(token: string): (url: string)
    ensures |url| == |ProductionPrefix| + |token|
    ensures url[..|ProductionPrefix|] == ProductionPrefix && url[|ProductionPrefix|..] == token
  {
    ProductionPrefix + token
  }

  /** No sandbox URL is a production URL, whatever the two tokens are. */
  lemma EndpointsDisjoint(sandboxToken: string, productionToken: string)
    ensures SandboxUrl(sandboxToken) != ProductionUrl(productionToken)
  {
    var s, p := SandboxUrl(sandboxToken), ProductionUrl(productionToken);
    assert s[..|SandboxPrefix|][12] == 's';
    assert p[..|ProductionPrefix|][12] == 'p';
  }

  // ---------------------------------------------------------------------
  // Header lines: `[$key, $value] = explode(':', $v)`
  // ---------------------------------------------------------------------

  /** A header line `name:value` as `_buildHeader` writes it. */
  function HeaderLine(name: string, value: string): string {
    name + ":" + value
  }

  /** `$key`: the text before the first colon, or the whole line. */
  function HeaderName(line: string): string {
    Explode(line)[0]
  }

  /** `$value`: the text between the first and the second colon; null when
      the line has no colon at all. */
  function HeaderValue(line: string): Option<string> {
    var parts := Explode(line);
    if |parts| >= 2 then Some(parts[1]) else None
  }

  /** A `name:value` line with colon-free parts splits back into its parts. */
  lemma HeaderLineSplit(name: string, value: string)
    requires ColonFree(name) && ColonFree(value)
    ensures HeaderName(HeaderLine(name, value)) == name
    ensures HeaderValue(HeaderLine(name, value)) == Some(value)
  {
    ExplodeCons(name, value);
    ExplodeWhole(value);
  }

  /** The name of a `name:value` line with a colon-free name is that name,
      whatever the value holds. */
  lemma HeaderLineName(name: string, value: string)
    requires ColonFree(name)
    ensures HeaderName(HeaderLine(name, value)) == name
  {
    ExplodeCons(name, value);
  }

  /** Beyond a second colon the line is dropped: only the second piece is kept. */
  lemma HeaderExtraColonsDropped(name: string, value: string, rest: string)
    requires ColonFree(name) && ColonFree(value)
    ensures HeaderName(name + ":" + value + ":" + rest) == name
    ensures HeaderValue(name + ":" + value + ":" + rest) == Some(value)
  {
    var tail := value + ":" + rest;
    assert name + ":" + value + ":" + rest == name + ":" + tail;
    ExplodeCons(name, tail);
    ExplodeCons(value, rest);
  }

  /** A line without a colon becomes a key whose value is null. */
  lemma HeaderWithoutColon(line: string)
    requires ColonFree(line)
    ensures HeaderName(line) == line && HeaderValue(line) == None
  {
  }

  /** The array the `foreach` of `setHeader` leaves after the given lines. */
  function HeaderArrayOf(lines: seq<string>): HeaderArray {
    if lines == [] then []
    else
      var last := lines[|lines| - 1];
      Put(HeaderArrayOf(lines[..|lines| - 1]), HeaderName(last), HeaderValue(last))
  }

  /** The header names are distinct, and they are exactly the names (texts
      before the first colon) of the lines. */
  lemma {:induction false} HeaderArrayKeys(lines: seq<string>)
    ensures UniqueKeys(HeaderArrayOf(lines))
    ensures forall k :: k in Keys(HeaderArrayOf(lines)) <==> exists j :: 0 <= j < |lines| && HeaderName(lines[j]) == k
  {
    if lines != [] {
      var n := |lines|;
      var init := lines[..n - 1];
      var name := HeaderName(lines[n - 1]);
      var prev := HeaderArrayOf(init);
      assert HeaderArrayOf(lines) == Put(prev, name, HeaderValue(lines[n - 1]));
      HeaderArrayKeys(init);
      PutKeys(prev, name, HeaderValue(lines[n - 1]));
      PutUnique(prev, name, HeaderValue(lines[n - 1]));
      forall k
        ensures k in Keys(HeaderArrayOf(lines)) <==> exists j :: 0 <= j < n && HeaderName(lines[j]) == k
      {
        if k == name {
          assert HeaderName(lines[n - 1]) == k;
        } else {
          assert k in Keys(HeaderArrayOf(lines)) <==> k in Keys(prev);
          if k in Keys(prev) {
            var j :| 0 <= j < |init| && HeaderName(init[j]) == k;
            assert init[j] == lines[j];
          }
          if exists j :: 0 <= j < n && HeaderName(lines[j]) == k {
            var j :| 0 <= j < n && HeaderName(lines[j]) == k;
            assert j < n - 1 && init[j] == lines[j];
          }
        }
      }
    }
  }

  /** When several lines share a name, the last of them gives the value. */
  lemma {:induction false} HeaderLastWins(lines: seq<string>, j: nat)
    requires j < |lines|
    requires forall l :: j < l < |lines| ==> HeaderName(lines[l]) != HeaderName(lines[j])
    ensures Lookup(HeaderArrayOf(lines), HeaderName(lines[j])) == Some(HeaderValue(lines[j]))
    decreases |lines|
  {
    var n := |lines|;
    var init := lines[..n - 1];
    var last := lines[n - 1];
    var k := HeaderName(lines[j]);
    assert HeaderArrayOf(lines) == Put(HeaderArrayOf(init), HeaderName(last), HeaderValue(last));
    PutLookup(HeaderArrayOf(init), HeaderName(last), HeaderValue(last), k);
    if j < n - 1 {
      assert init[j] == lines[j];
      assert forall l :: j < l < |init| ==> init[l] == lines[l];
      HeaderLastWins(init, j);
    }
  }

  /** One colon-free `name:value` line, parsed alone. */
  lemma HeaderLineEntry(name: string, value: string)
    requires ColonFree(name) && ColonFree(value)
    ensures HeaderArrayOf([HeaderLine(name, value)]) == [Entry(name, Some(value))]
  {
    var lines := [HeaderLine(name, value)];
    HeaderLineSplit(name, value);
    assert lines[..0] == [];
  }

  /** Splitting `lines + [line]` is splitting `lines`, then one more `Put`. */
  lemma HeaderArraySnoc(lines: seq<string>, line: string)
    ensures HeaderArrayOf(lines + [line]) == Put(HeaderArrayOf(lines), HeaderName(line), HeaderValue(line))
  {
    assert (lines + [line])[..|lines|] == lines;
  }

  /** Three colon-free name/value pairs with distinct names, written as
      `name:value` lines and split again, give back the pairs in order. */
  lemma HeaderTripleRoundTrip(n0: string, v0: string, n1: string, v1: string, n2: string, v2: string)
    requires ColonFree(n0) && ColonFree(v0) && ColonFree(n1) && ColonFree(v1) && ColonFree(n2) && ColonFree(v2)
    requires n0 != n1 && n0 != n2 && n1 != n2
    ensures HeaderArrayOf([HeaderLine(n0, v0), HeaderLine(n1, v1), HeaderLine(n2, v2)]) ==
      [Entry(n0, Some(v0)), Entry(n1, Some(v1)), Entry(n2, Some(v2))]
  {
    var l0, l1, l2 := HeaderLine(n0, v0), HeaderLine(n1, v1), HeaderLine(n2, v2);
    var e0, e1, e2 := Entry(n0, Some(v0)), Entry(n1, Some(v1)), Entry(n2, Some(v2));
    HeaderLineEntry(n0, v0);
    HeaderLineSplit(n1, v1);
    HeaderLineSplit(n2, v2);
    HeaderArraySnoc([l0], l1);
    assert [l0] + [l1] == [l0, l1];
    assert HeaderArrayOf([l0, l1]) == [e0, e1] by {
      assert Put([e0][1..], n1, Some(v1)) == [e1];
    }
    HeaderArraySnoc([l0, l1], l2);
    assert [l0, l1] + [l2] == [l0, l1, l2];
    assert Put([e0, e1], n2, Some(v2)) == [e0, e1, e2] by {
      assert Put([e0, e1][1..][1..], n2, Some(v2)) == [e2];
      assert Put([e0, e1][1..], n2, Some(v2)) == [e1, e2];
    }
  }

  // ---------------------------------------------------------------------
  // Findings: how the class declares its certificate properties
  // ---------------------------------------------------------------------

  /** `setCertificateFile` AS DECLARED: the two properties it assigns are
      typed `string`, so PHP refuses (with a TypeError) an array of paths and
      a null password, even though null is the method's own default; Some
      gives the stored pair, None the TypeError. With a null password the
      path has already been stored when the error is raised; that partial
      write is not modelled here. */
  function DeclaredCertificateAssignment(cert: Cert, password: Option<string>): (r: Option<(string, string)>)
    ensures r.Some? <==> cert.Path? && password.Some?
  {
    match (cert, password)
    case (Path(p), Some(w)) => Some((p, w))
    case _ => None
  }

  /** The constructor's default password (null) can never be assigned as
      declared: every push from such a server would stop with a TypeError. */
  lemma DefaultPasswordRejected(path: string)
    ensures DeclaredCertificateAssignment(Path(path), None) == None
  {
  }

  /** Nor can an array of certificate paths, which the constructor accepts;
      the property's documentation says the certificate is only ever a string,
      so this refusal is kept in the corrected assignment too. */
  lemma CertificateListRejected(paths: seq<string>, password: Option<string>)
    ensures DeclaredCertificateAssignment(Paths(paths), password) == None
  {
  }

  // ---------------------------------------------------------------------
  // The class
  // ---------------------------------------------------------------------

  class ClientServe {
    var deviceToken: Option<string>
    var certificateFile: Option<string>
    var certPassword: Option<string>
    var headers: Option<HeaderArray>
    var payload: Option<string>
    var options: Option<seq<Entry<Value>>>

    /** `new ClientServe()`: no property is set yet. */
    constructor ()
      ensures deviceToken == None && certificateFile == None && certPassword == None
      ensures headers == None && payload == None && options == None
    {
      deviceToken, certificateFile, certPassword := None, None, None;
      headers, payload, options := None, None, None;
    }

    method SetDeviceToken(token: string) returns (self: ClientServe)
      modifies this`deviceToken
      ensures self == this && deviceToken == Some(token)
    {
      deviceToken := Some(token);
      self := this;
    }

    /** Stores the certificate path and its password, with the password
        nullable so that the method's own default (null) is accepted. The
        certificate stays a `string`, as its property documents: an array of
        paths raises the TypeError at the first assignment and nothing is
        stored. DeclaredCertificateAssignment models the declared types. */
    method SetCertificateFile(cert: Cert, password: Option<string>) returns (r: Result<ClientServe, TypeError>)
      modifies this`certificateFile, this`certPassword
      ensures r.Success? <==> cert.Path?
      ensures r.Success? ==> r.value == this && certificateFile == Some(cert.path) && certPassword == password
      ensures r.Failure? ==> r.error == TypeError("certificateFile")
      ensures r.Failure? ==> certificateFile == old(certificateFile) && certPassword == old(certPassword)
    {
      if cert.Paths? {
        return Failure(TypeError("certificateFile"));
      }
      certificateFile, certPassword := Some(cert.path), password;
      r := Success(this);
    }

    method SetOptions(opts: seq<Entry<Value>>) returns (self: ClientServe)
      modifies this`options
      ensures self == this && options == Some(opts)
    {
      options := Some(opts);
      self := this;
    }

    /** Splits every `name:value` line and stores the resulting array. */
    method SetHeader(lines: seq<string>) returns (self: ClientServe)
      modifies this`headers
      ensures self == this && headers == Some(HeaderArrayOf(lines))
    {
      var data: HeaderArray := [];
      for i := 0 to |lines|
        invariant data == HeaderArrayOf(lines[..i])
      {
        var parts := Explode(lines[i]);
        var key := parts[0];
        var value := if |parts| >= 2 then Some(parts[1]) else None;
        assert lines[..i + 1][..i] == lines[..i];
        data := Put(data, key, value);
      }
      assert lines[..|lines|] == lines;
      headers := Some(data);
      self := this;
    }

    /** Stores the encoded payload; `encode` stands for `json_encode`. */
    method SetPayload(body: Value, encode: Value -> string) returns (self: ClientServe)
      modifies this`payload
      ensures self == this && payload == Some(encode(body))
    {
      payload := Some(encode(body));
      self := this;
    }

    /** The token as string concatenation sees it: an unset one reads as "". */
    function TokenText(): string
      reads this
    {
      if deviceToken.Some? then deviceToken.value else ""
    }

    /** The request `_build` sends to `url` from the stored properties. */
    function RequestTo(url: string): (req: Request)
      reads this
      ensures req.url == url && req.headers == headers && req.cert == certificateFile
      ensures req.password == certPassword && req.body == payload
    {
      Request(url, headers, certificateFile, certPassword, payload)
    }

    method PushSandbox(send: Transport) returns (r: Result<Response, TransportError>)
      ensures r == send(RequestTo(SandboxUrl(TokenText())))
    {
      var url := SandboxPrefix + TokenText();
      r := send(RequestTo(url));
    }

    method PushProd(send: Transport) returns (r: Result<Response, TransportError>)
      ensures r == send(RequestTo(ProductionUrl(TokenText())))
    {
      var url := ProductionPrefix + TokenText();
      r := send(RequestTo(url));
    }
  }
}
