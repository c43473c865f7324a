/** `ApnsServer`: a notification builder. It holds the bundle id, the push
    type and the certificate, accumulates title, subtitle, body and custom
    content, and on `push` builds the APNS headers and payload and hands them
    to a `ClientServe` for the chosen environment. */
module Apns {
  import opened Php
  import opened Client

  const ENVIRONMENT_PRODUCTION := 1
  const ENVIRONMENT_SANDBOX := 2

  /** The push types `setPushType` accepts. */
  const AllowedPushTypes: seq<string> :=
    ["alert", "background", "location", "voip", "complication", "fileprovider", "mdm"]

  /** The properties a run-time name can reach: the ones the class assigns. */
  const PropertyNames: seq<string> :=
    ["_bundleId", "_pushType", "_title", "_subTitle", "_body", "_custom"]

  /** The value of the `Content-Type` header `_buildHeader` always sends. */
  const ContentType: string := "application/x-www-form-urlencoded"

  /** The fields `_buildPayLoad` copies into the alert, in this order. */
  const AlertFields: seq<string> := ["title", "subtitle", "body", "custom"]

  /** The alert before any content is copied in. */
  const DefaultAlert: seq<Entry<Value>> :=
    [Entry("title", Str("Default Title")), Entry("body", Str("Default Body"))]

  datatype Error =
    | UnreadableCertificate(path: string)
    | UnknownPushType(pushType: string)
    | InvalidEnvironment(environment: int)
      /** `new Exception($e->getMessage(), $e->getCode())` in `push` */
    | Rethrown(message: string, code: int)
      /** a TypeError from the client, which the `catch` of `push` lets through */
    | Uncaught(typeError: TypeError)

  /** `in_array($type, $allowedTypes)`, for the seven push types. */
  predicate IsAllowedPushType(t: string) {
    t in AllowedPushTypes
  }

  /** The environment check at the top of `push`. */
  predicate IsValidEnvironment(environment: int) {
    environment == ENVIRONMENT_PRODUCTION || environment == ENVIRONMENT_SANDBOX
  }

  /** Exactly the seven names (documentation: the list, written out). */
  lemma AllowedPushTypes7(t: string)
    ensures IsAllowedPushType(t) <==>
      t == "alert" || t == "background" || t == "location" || t == "voip" ||
      t == "complication" || t == "fileprovider" || t == "mdm"
  {
  }

  /** No push type holds a colon, so a header line built from one splits
      cleanly. */
  lemma PushTypeColonFree(t: string)
    requires IsAllowedPushType(t)
    ensures ColonFree(t)
  {
  }

  /** The catch block of `push`: a transport failure comes back as a plain
      exception with the same message and code; a response passes untouched. */
  function Rethrow(outcome: Result<Response, TransportError>): (r: Result<Response, Error>)
    ensures r.Success? <==> outcome.Success?
    ensures outcome.Success? ==> r.value == outcome.value
    ensures outcome.Failure? ==>
      r.error == Rethrown(outcome.error.message, outcome.error.code)
  {
    match outcome
    case Success(resp) => Success(resp)
    case Failure(TransportError(m, c)) => Failure(Rethrown(m, c))
  }

  /** The list of file paths the constructor checks. */
  function CertificatePaths(cert: Cert): (paths: seq<string>)
    ensures cert.Path? ==> paths == [cert.path]
    ensures cert.Paths? ==> paths == cert.paths
  {
    match cert
    case Path(p) => [p]
    case Paths(ps) => ps
  }

  /** The `is_readable` loop of the constructor: the position of the first
      unreadable path, or None when every path is readable. `readable` stands
      for the file system. */
  method FirstUnreadable(paths: seq<string>, readable: string -> bool) returns (r: Option<nat>)
    ensures r.None? <==> forall j :: 0 <= j < |paths| ==> readable(paths[j])
    ensures r.Some? ==> r.value < |paths| && !readable(paths[r.value])
    ensures r.Some? ==> forall j :: 0 <= j < r.value ==> readable(paths[j])
  {
    for i := 0 to |paths|
      invariant forall j :: 0 <= j < i ==> readable(paths[j])
    {
      if !readable(paths[i]) {
        return Some(i);
      }
    }
    return None;
  }

  class ApnsServer {
    var client: ClientServe
    var bundleId: string
    var pushType: string
    var certificateFile: Cert
    var certPassword: Option<string>
    // content properties; None is a property that was never assigned
    var title: Option<string>
    var subTitle: Option<string>
    var body: Option<string>
    var custom: Option<seq<Entry<Value>>>

    /** The push type is always one that `setPushType` accepts. */
    ghost predicate Valid()
      reads this
    {
      IsAllowedPushType(pushType)
    }

    /** The field initialisation of `__construct`, once the certificate check
        has passed (see Create). */
    constructor (bundle: string, cert: Cert, password: Option<string>, readable: string -> bool)
      requires forall p :: p in CertificatePaths(cert) ==> readable(p)
      ensures Valid()
      ensures bundleId == bundle && certificateFile == cert && certPassword == password
      ensures pushType == "voip"
      ensures title == None && subTitle == None && body == None && custom == None
      ensures fresh(client)
      ensures client.deviceToken == None && client.certificateFile == None && client.certPassword == None
      ensures client.headers == None && client.payload == None && client.options == None
    {
      bundleId, certificateFile, certPassword := bundle, cert, password;
      pushType := "voip";
      title, subTitle, body, custom := None, None, None, None;
      client := new ClientServe();
    }

    /** `new ApnsServer(...)`: fails on the first certificate path that is not
        readable, otherwise builds the server. */
    static method Create(bundle: string, cert: Cert, password: Option<string>, readable: string -> bool)
      returns (r: Result<ApnsServer, Error>)
      ensures r.Failure? <==> exists p :: p in CertificatePaths(cert) && !readable(p)
      ensures r.Failure? ==>
        r.error.UnreadableCertificate? && r.error.path in CertificatePaths(cert) && !readable(r.error.path)
      ensures r.Success? ==> fresh(r.value) && r.value.Valid() && r.value.pushType == "voip"
      ensures r.Success? ==> r.value.bundleId == bundle && r.value.certificateFile == cert
      ensures r.Success? ==> r.value.certPassword == password
      ensures r.Success? ==> r.value.title == None && r.value.subTitle == None
      ensures r.Success? ==> r.value.body == None && r.value.custom == None
      ensures r.Success? ==> fresh(r.value.client)
      ensures r.Success? ==> r.value.client.deviceToken == None && r.value.client.certificateFile == None
      ensures r.Success? ==> r.value.client.certPassword == None && r.value.client.headers == None
      ensures r.Success? ==> r.value.client.payload == None && r.value.client.options == None
    {
      var paths := CertificatePaths(cert);
      var bad := FirstUnreadable(paths, readable);
      if bad.Some? {
        return Failure(UnreadableCertificate(paths[bad.value]));
      }
      assert forall p :: p in paths ==> readable(p) by {
        forall p | p in paths ensures readable(p) {
          var j :| 0 <= j < |paths| && paths[j] == p;
        }
      }
      var s := new ApnsServer(bundle, cert, password, readable);
      return Success(s);
    }

    method SetPushType(t: string) returns (r: Result<ApnsServer, Error>)
      requires Valid()
      modifies this`pushType
      ensures Valid()
      ensures r.Success? <==> IsAllowedPushType(t)
      ensures r.Success? ==> r.value == this && pushType == t
      ensures r.Failure? ==> r.error == UnknownPushType(t) && pushType == old(pushType)
      ensures BuildHeader()[1] == HeaderLine("apns-push-type", pushType)
    {
      if t !in AllowedPushTypes {
        return Failure(UnknownPushType(t));
      }
      pushType := t;
      return Success(this);
    }

    method AddTitle(t: string) returns (self: ApnsServer)
      modifies this`title
      ensures self == this && title == Some(t)
    {
      title := Some(t);
      self := this;
    }

    method AddSubTitle(t: string) returns (self: ApnsServer)
      modifies this`subTitle
      ensures self == this && subTitle == Some(t)
    {
      subTitle := Some(t);
      self := this;
    }

    method AddBody(b: string) returns (self: ApnsServer)
      modifies this`body
      ensures self == this && body == Some(b)
    {
      body := Some(b);
      self := this;
    }

    method AddCustom(options: seq<Entry<Value>>) returns (self: ApnsServer)
      modifies this`custom
      ensures self == this && custom == Some(options)
    {
      custom := Some(options);
      self := this;
    }

    /** `$this->$name`: a property looked up by a name computed at run time.
        Names are case-sensitive. This covers the bundle id, the push type and
        the four content properties; the certificate properties, which no
        run-time name reaches, are left out. Any other name reads as unset. */
    function Property(name: string): (r: Option<Value>)
      reads this
      ensures r.Some? ==> name in PropertyNames
      ensures name == "_bundleId" ==> r == Some(Str(bundleId))
      ensures name == "_pushType" ==> r == Some(Str(pushType))
      ensures name == "_title" ==> (r.Some? <==> title.Some?) && (r.Some? ==> r.value == Str(title.value))
      ensures name == "_subTitle" ==> (r.Some? <==> subTitle.Some?) && (r.Some? ==> r.value == Str(subTitle.value))
      ensures name == "_body" ==> (r.Some? <==> body.Some?) && (r.Some? ==> r.value == Str(body.value))
      ensures name == "_custom" ==> (r.Some? <==> custom.Some?) && (r.Some? ==> r.value == Arr(custom.value))
    {
      if name == "_bundleId" then Some(Str(bundleId))
      else if name == "_pushType" then Some(Str(pushType))
      else if name == "_title" then (if title.Some? then Some(Str(title.value)) else None)
      else if name == "_subTitle" then (if subTitle.Some? then Some(Str(subTitle.value)) else None)
      else if name == "_body" then (if body.Some? then Some(Str(body.value)) else None)
      else if name == "_custom" then (if custom.Some? then Some(Arr(custom.value)) else None)
      else None
    }

    /** `_buildHeader`: the topic, push-type and content-type lines, in this
        order; their names come out of the split unchanged whatever the
        values hold. */
    function BuildHeader(): (h: seq<string>)
      reads this
      ensures |h| == 3
      ensures HeaderName(h[0]) == "apns-topic" && HeaderName(h[1]) == "apns-push-type"
      ensures HeaderName(h[2]) == "Content-Type"
      ensures HeaderValue(h[2]) == Some(ContentType)
    {
      HeaderLineName("apns-topic", bundleId);
      HeaderLineName("apns-push-type", pushType);
      HeaderLineSplit("Content-Type", ContentType);
      [HeaderLine("apns-topic", bundleId),
       HeaderLine("apns-push-type", pushType),
       HeaderLine("Content-Type", ContentType)]
    }

    /** The alert array after the loop of `_buildPayLoad` has visited `fields`:
        a field whose property is not `empty` is written under its own name. */
    function AlertAfter(fields: seq<string>): seq<Entry<Value>>
      reads this
    {
      if fields == [] then DefaultAlert
      else
        var field := fields[|fields| - 1];
        var prev := AlertAfter(fields[..|fields| - 1]);
        var attribute := Property("_" + field);
        if IsEmpty(attribute) then prev else Put(prev, field, attribute.value)
    }

    /** The payload `_buildPayLoad` returns: `sound` sits beside `aps`. */
    function Payload(): Value
      reads this
    {
      Arr([Entry("aps", Arr([Entry("alert", Arr(AlertAfter(AlertFields)))])),
           Entry("sound", Str("default"))])
    }

    /** `_buildPayLoad`. */
    method BuildPayLoad() returns (p: Value)
      ensures p == Payload()
    {
      var alert := DefaultAlert;
      for i := 0 to |AlertFields|
        invariant alert == AlertAfter(AlertFields[..i])
      {
        var field := AlertFields[i];
        var attribute := "_" + field;
        var v := Property(attribute);
        assert AlertFields[..i + 1][..i] == AlertFields[..i];
        if !IsEmpty(v) {
          alert := Put(alert, field, v.value);
        }
      }
      assert AlertFields[..|AlertFields|] == AlertFields;
      p := Arr([Entry("aps", Arr([Entry("alert", Arr(alert))])), Entry("sound", Str("default"))]);
    }

    /** `push`: checks the environment, builds headers and payload, fills
        the client and sends through the sandbox or the production endpoint.
        The builder's own fields are left as they were. */
    method Push(deviceToken: string, environment: int, encode: Value -> string, send: Transport)
      returns (r: Result<Response, Error>)
      modifies client
      ensures unchanged(this)
      ensures !IsValidEnvironment(environment) ==>
        r == Failure(InvalidEnvironment(environment)) && unchanged(client)
      ensures IsValidEnvironment(environment) && certificateFile.Paths? ==>
        r == Failure(Uncaught(TypeError("certificateFile"))) && unchanged(client)
      ensures IsValidEnvironment(environment) && certificateFile.Path? ==>
        client.deviceToken == Some(deviceToken) &&
        client.certificateFile == Some(certificateFile.path) && client.certPassword == certPassword &&
        client.headers == Some(HeaderArrayOf(BuildHeader())) &&
        client.payload == Some(encode(Payload())) &&
        client.options == Some([])
      ensures environment == ENVIRONMENT_SANDBOX && certificateFile.Path? ==>
        r == Rethrow(send(client.RequestTo(SandboxUrl(deviceToken))))
      ensures environment == ENVIRONMENT_PRODUCTION && certificateFile.Path? ==>
        r == Rethrow(send(client.RequestTo(ProductionUrl(deviceToken))))
    {
      if environment != ENVIRONMENT_PRODUCTION && environment != ENVIRONMENT_SANDBOX {
        return Failure(InvalidEnvironment(environment));
      }
      var headers := BuildHeader();
      var payloadArray := BuildPayLoad();
      var options: seq<Entry<Value>> := [];
      var stored := client.SetCertificateFile(certificateFile, certPassword);
      if stored.Failure? {
        return Failure(Uncaught(stored.error));
      }
      var serve := stored.value;
      serve := serve.SetDeviceToken(deviceToken);
      serve := serve.SetHeader(headers);
      serve := serve.SetPayload(payloadArray, encode);
      serve := serve.SetOptions(options);
      var response;
      if environment == ENVIRONMENT_SANDBOX {
        response := serve.PushSandbox(send);
      } else {
        response := serve.PushProd(send);
      }
      r := Rethrow(response);
    }
  }

  // ---------------------------------------------------------------------
  // Properties of the payload and of the headers
  // ---------------------------------------------------------------------

  /** The value an alert key gets from a string property. */
  function TextOr(prop: Option<string>, default: string): Value {
    if prop.Some? && !IsEmpty(Some(Str(prop.value))) then Str(prop.value) else Str(default)
  }

  /** One more visited field is copied in exactly when its property is not
      `empty`. */
  lemma AlertStep(s: ApnsServer, fields: seq<string>, field: string)
    ensures s.AlertAfter(fields + [field]) ==
      if IsEmpty(s.Property("_" + field)) then s.AlertAfter(fields)
      else Put(s.AlertAfter(fields), field, s.Property("_" + field).value)
  {
    assert (fields + [field])[..|fields|] == fields;
  }

  /** After title, subtitle and body: title and body, each the property when
      it is not `empty`, else the default. */
  lemma AlertTitleBody(s: ApnsServer)
    ensures s.AlertAfter(["title", "subtitle", "body"]) ==
      [Entry("title", TextOr(s.title, "Default Title")), Entry("body", TextOr(s.body, "Default Body"))]
  {
    var t := TextOr(s.title, "Default Title");
    var b := TextOr(s.body, "Default Body");
    AlertStep(s, [], "title");
    assert [] + ["title"] == ["title"] && "_" + "title" == "_title";
    var a1 := s.AlertAfter(["title"]);
    assert a1 == [Entry("title", t), Entry("body", Str("Default Body"))];
    AlertStep(s, ["title"], "subtitle");
    assert ["title"] + ["subtitle"] == ["title", "subtitle"] && "_" + "subtitle" == "_subtitle";
    assert s.Property("_subtitle") == None;
    AlertStep(s, ["title", "subtitle"], "body");
    assert ["title", "subtitle"] + ["body"] == ["title", "subtitle", "body"] && "_" + "body" == "_body";
    if !IsEmpty(s.Property("_body")) {
      assert Put(a1[1..], "body", b) == [Entry("body", b)];
    }
  }

  /** The alert array, entry by entry: title and body first (the property
      when it is not `empty`, else the default), then `custom` holding the
      whole custom array when that is not empty. Subtitle never appears:
      the loop reads `_subtitle`, while `addSubTitle` writes `_subTitle`. */
  lemma AlertEntries(s: ApnsServer)
    ensures s.AlertAfter(AlertFields) ==
      [Entry("title", TextOr(s.title, "Default Title")),
       Entry("body", TextOr(s.body, "Default Body"))] +
      (if s.custom.Some? && s.custom.value != [] then [Entry("custom", Arr(s.custom.value))] else [])
  {
    AlertTitleBody(s);
    var a3 := s.AlertAfter(["title", "subtitle", "body"]);
    AlertStep(s, ["title", "subtitle", "body"], "custom");
    assert ["title", "subtitle", "body"] + ["custom"] == AlertFields && "_" + "custom" == "_custom";
    if s.custom.Some? && s.custom.value != [] {
      var c := Arr(s.custom.value);
      assert Put(a3[1..][1..], "custom", c) == [Entry("custom", c)];
      assert Put(a3[1..], "custom", c) == [a3[1], Entry("custom", c)];
    }
  }

  /** Whatever `addSubTitle` stored, the alert has no `subtitle` key. */
  lemma SubtitleNeverSent(s: ApnsServer)
    ensures Lookup(s.AlertAfter(AlertFields), "subtitle") == None
    ensures "subtitle" !in Keys(s.AlertAfter(AlertFields))
  {
    AlertEntries(s);
  }

  /** The alert-map overwrite rule: a non-`empty` title or body replaces the
      default, an `empty` one keeps it; custom is present exactly when the
      custom array has entries, and then it is that array, unmerged. */
  lemma AlertOverwrite(s: ApnsServer)
    ensures Lookup(s.AlertAfter(AlertFields), "title") ==
      Some(TextOr(s.title, "Default Title"))
    ensures Lookup(s.AlertAfter(AlertFields), "body") ==
      Some(TextOr(s.body, "Default Body"))
    ensures Lookup(s.AlertAfter(AlertFields), "custom") ==
      if s.custom.Some? && s.custom.value != [] then Some(Arr(s.custom.value)) else None
  {
    AlertEntries(s);
    var a := s.AlertAfter(AlertFields);
    assert a[0].key == "title" && a[1..][0].key == "body";
    assert Lookup(a, "custom") == Lookup(a[1..][1..], "custom");
    if |a| == 3 {
      assert a[1..][1..] == [Entry("custom", Arr(s.custom.value))];
    } else {
      assert a[1..][1..] == [];
    }
  }

  /** With no content set the payload is the default notification. */
  lemma DefaultPayload(s: ApnsServer)
    requires s.title == None && s.body == None && s.custom == None
    ensures s.Payload() ==
      Arr([Entry("aps", Arr([Entry("alert", Arr([Entry("title", Str("Default Title")),
                                                 Entry("body", Str("Default Body"))]))])),
           Entry("sound", Str("default"))])
  {
    AlertEntries(s);
    assert TextOr(s.title, "Default Title") == Str("Default Title");
    assert TextOr(s.body, "Default Body") == Str("Default Body");
    assert s.AlertAfter(AlertFields) == DefaultAlert;
  }

  /** Round trip: the lines of `_buildHeader`, split by `setHeader`, give the
      three headers with exactly the builder's values, when the bundle id has
      no colon (the push type of a valid server never has one). */
  lemma HeaderRoundTrip(s: ApnsServer)
    requires s.Valid() && ColonFree(s.bundleId)
    ensures HeaderArrayOf(s.BuildHeader()) ==
      [Entry("apns-topic", Some(s.bundleId)),
       Entry("apns-push-type", Some(s.pushType)),
       Entry("Content-Type", Some(ContentType))]
  {
    PushTypeColonFree(s.pushType);
    HeaderTripleRoundTrip("apns-topic", s.bundleId, "apns-push-type", s.pushType,
                          "Content-Type", ContentType);
  }
}
