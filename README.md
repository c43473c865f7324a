# ApnsPush request construction, modelled in Dafny

This project models the request-building core of the ApnsPush library (PHP).
The library sends push notifications to Apple's Push Notification service
(APNS) over HTTP/2, authenticated by a client certificate. It has two
classes:

- `ApnsServer` is the notification builder. It holds the bundle id, the
  push type (default `voip`), the certificate file(s) and their password.
  Its chainable setters collect title, subtitle, body and custom content.
  `push` checks the environment (1 production, 2 sandbox), builds three
  header lines (`_buildHeader`) and the payload (`_buildPayLoad`), then
  hands everything to a `ClientServe`.
- `ClientServe` is the request assembler. Its chainable setters store the
  device token, certificate, options and JSON body. `setHeader` splits each
  `name:value` line with `explode(':', …)` into an array. `pushSandbox` and
  `pushProd` append the token, unescaped, to the sandbox or production URL
  and call the HTTP transport.

Files:

- `php.dfy` (module `Php`): the pieces of PHP the code relies on.
  - A PHP array is an ordered list of `key => value` entries. Writing a key
    again keeps its position; a new key is appended.
  - `empty()`: `""` and `"0"` are empty, as are an empty array and a
    property that was never assigned.
  - `explode(':', …)` and `implode(':', …)`.
- `client_serve.dfy` (module `Client`): the `ClientServe` class, the two
  endpoint URLs, and header-line parsing with its lemmas.
- `apns_server.dfy` (module `Apns`): the `ApnsServer` class, its
  certificate check, the payload loop, `push`, and the lemmas about the
  payload and the header round trip.

The two objects are classes whose setters update fields under `modifies`
frames. Each setter returns the object itself, as in the fluent PHP API.
Three of the PHP loops remain loops, each proved against a specification:

- the `is_readable` loop of the constructor (`Apns.FirstUnreadable`),
  against its ensures, which pin down the first unreadable path;
- the `foreach` of `_buildPayLoad` (`ApnsServer.BuildPayLoad`), against
  the function `ApnsServer.AlertAfter`;
- the `foreach` of `setHeader` (`ClientServe.SetHeader`), against the
  function `Client.HeaderArrayOf`.

The payload loop reads each property by a name computed at run time
(`$this->$attribute`). This is modelled by `ApnsServer.Property`. In PHP,
property names are case-sensitive. `addSubTitle` writes `_subTitle`, but
the loop looks up `_subtitle`, which was never assigned. So **a subtitle
never reaches the payload**. The model reproduces this rather than fixing
it; `Apns.SubtitleNeverSent` states it.

Collaborators the model cannot see are passed in as parameters:

- `readable: string -> bool` stands for `is_readable`, i.e. the file system.
- `encode: Value -> string` stands for `json_encode`.
- `send: Request -> Result<Response, TransportError>` stands for the Guzzle
  HTTP/2 POST of `ClientServe::_build`. It receives exactly the URL,
  headers, certificate, password and body that `_build` passes on. The
  response comes back uninterpreted.

The constructor's exception becomes `ApnsServer.Create`, which returns a
`Result`. The plain `constructor` holds the field initialisation.
`push(token)`, whose environment defaults to 2, is `Push(token,
ENVIRONMENT_SANDBOX, …)`.

## Model

| member | source | states |
|---|---|---|
| Php.Lookup | src/ClientServe.php:60 | reading `$a[$k]` finds a value exactly when `$k` is one of the array's keys. The source never reads these arrays by key itself; `Lookup` is the observer in which the header and alert lemmas are stated |
| Php.Put | src/ClientServe.php:60 | a definition of `$a[$k] = $v` (also src/ApnsServer.php:204) with no contract of its own; its properties are the rows `Php.PutLookup`, `Php.PutKeys` and `Php.PutUnique` |
| Php.PutLookup | src/ApnsServer.php:204 | after `$a[$k] = $v`, `$a[$k]` is `$v` and every other key reads as before |
| Php.PutKeys | src/ClientServe.php:60 | `$a[$k] = $v` keeps an existing key in place and appends a new key at the end |
| Php.PutUnique | src/ClientServe.php:60 | assignment never duplicates a key |
| Php.IsEmpty | src/ApnsServer.php:203 | a definition of PHP's `empty` (unset, null, false, 0, `""`, `"0"`, an empty array) with no contract of its own; `Php.EmptyStrings` documents its string case, and `Apns.AlertStep` and `Apns.AlertOverwrite` use it |
| Php.EmptyStrings | src/ApnsServer.php:203 | `empty` holds of a string exactly when it is `""` or `"0"`; this documents `IsEmpty`'s string case |
| Php.ColonIndex | src/ClientServe.php:59 | the index of the first colon, or the length when there is none; every earlier character is not a colon |
| Php.Explode | src/ClientServe.php:59 | `explode` always yields at least one piece |
| Php.ExplodeColonFree | src/ClientServe.php:59 | no piece `explode` yields contains a colon |
| Php.ExplodeJoins | src/ClientServe.php:59 | joining the pieces with colons gives the input back |
| Php.ExplodeWhole | src/ClientServe.php:59 | a colon-free string explodes to itself alone |
| Php.ExplodeCons | src/ClientServe.php:59 | a colon-free text before the first colon is the first piece; the rest is exploded on its own |
| Php.ExplodeJoin | src/ClientServe.php:59 | exploding the colon-joined form of colon-free pieces gives back exactly those pieces |
| Client.SandboxUrl | src/ClientServe.php:75-79 | the sandbox URL is `https://api.sandbox.push.apple.com/3/device/` followed by the token, unchanged |
| Client.ProductionUrl | src/ClientServe.php:84-88 | the production URL is `https://api.push.apple.com/3/device/` followed by the token, unchanged |
| Client.EndpointsDisjoint | src/ClientServe.php:75-88 | no sandbox URL equals any production URL, whatever the tokens |
| Client.HeaderLine | src/ApnsServer.php:180-182 | a definition of the `"name:{$value}"` interpolation of `_buildHeader`, with no contract of its own; `Client.HeaderLineSplit` and `Client.HeaderLineName` state how `setHeader` splits it |
| Client.HeaderName | src/ClientServe.php:59 | a definition of `$key`, the first piece of `explode(':', $v)`, with no contract of its own; see `Client.HeaderLineName`, `Client.HeaderLineSplit`, `Client.HeaderExtraColonsDropped` and `Client.HeaderWithoutColon` |
| Client.HeaderValue | src/ClientServe.php:59 | a definition of `$value`, the second piece or null when there is none, with no contract of its own; see the same four lemma rows |
| Client.HeaderLineName | src/ClientServe.php:59 | a line whose name has no colon keeps that name as its key, whatever follows the colon |
| Client.HeaderLineSplit | src/ClientServe.php:59 | a `name:value` line with colon-free parts yields key `name` and value `value` |
| Client.HeaderExtraColonsDropped | src/ClientServe.php:59 | when a line has more than one colon, only the text between the first and second colon becomes the value |
| Client.HeaderWithoutColon | src/ClientServe.php:59 | a line without a colon becomes a key equal to the whole line, with a null value |
| Client.HeaderArrayOf | src/ClientServe.php:58-61 | a definition of the array the `foreach` of `setHeader` leaves after a list of lines (one assignment per line, last line last), with no contract of its own. `Client.ClientServe.SetHeader` is proved equal to it. `Client.HeaderArrayKeys`, `Client.HeaderLastWins`, `Client.HeaderLineEntry`, `Client.HeaderArraySnoc`, `Client.HeaderTripleRoundTrip` and `Apns.HeaderRoundTrip` state its properties |
| Client.HeaderArrayKeys | src/ClientServe.php:55-64 | the header array has distinct keys, and they are exactly the line prefixes before the first colon |
| Client.HeaderLastWins | src/ClientServe.php:57-61 | when several lines share a name, the value comes from the last of them |
| Client.HeaderLineEntry | src/ClientServe.php:58-61 | one `name:value` line alone gives the one-entry array `name => value` |
| Client.HeaderArraySnoc | src/ClientServe.php:58-61 | parsing one more line is one more array assignment after the earlier lines |
| Client.HeaderTripleRoundTrip | src/ClientServe.php:55-64 | three colon-free pairs with distinct names, written as lines and parsed again, come back in order |
| Client.DeclaredCertificateAssignment | src/ClientServe.php:20-47 | under the declared `string` property types, the assignment succeeds only for a single path with a non-null password. This is the as-written half of the finding below |
| Client.DefaultPasswordRejected | src/ApnsServer.php:43 | the constructor's default null password cannot be assigned to the declared `string` property |
| Client.CertificateListRejected | src/ClientServe.php:15-20 | an array of certificate paths, which the constructor accepts, cannot be assigned either. This matches the property's documentation that the certificate is only ever a string, so it is kept as intended behaviour |
| Client.ClientServe.constructor | src/ClientServe.php:13-34 | a new client has no property set |
| Client.ClientServe.SetDeviceToken | src/ClientServe.php:36-40 | stores the token, changes nothing else, and returns the same object |
| Client.ClientServe.SetCertificateFile | src/ClientServe.php:15-47 | a single path is stored with its password, which may be null (the method's own default at line 42), changing nothing else and returning the same object. An array of paths fails with the TypeError of the `string` certificate property and stores nothing. This is the corrected half of the finding below |
| Client.ClientServe.SetOptions | src/ClientServe.php:49-53 | stores the options, changes nothing else, and returns the same object |
| Client.ClientServe.SetHeader | src/ClientServe.php:55-64 | the loop stores exactly the array the line-by-line split specifies (`HeaderArrayOf`) and returns the same object |
| Client.ClientServe.SetPayload | src/ClientServe.php:66-70 | stores the encoding of the payload and returns the same object |
| Client.ClientServe.TokenText | src/ClientServe.php:77 | a definition of how `'…/device/' . $this->deviceToken` reads the token (also line 86): the stored token, or `""` when none was set. It has no contract of its own; `Client.ClientServe.PushSandbox` and `Client.ClientServe.PushProd` use it |
| Client.ClientServe.RequestTo | src/ClientServe.php:90-104 | the request carries the URL and the stored headers, certificate, password and body; options are not sent |
| Client.ClientServe.PushSandbox | src/ClientServe.php:75-79 | the response is the transport's answer to the stored request for the sandbox URL; an unset token reads as `""` |
| Client.ClientServe.PushProd | src/ClientServe.php:84-88 | the response is the transport's answer to the stored request for the production URL |
| Apns.IsAllowedPushType | src/ApnsServer.php:83 | a definition of `in_array($type, $allowedTypes)` with no contract of its own; `Apns.AllowedPushTypes7` writes it out and `Apns.ApnsServer.SetPushType` uses it |
| Apns.IsValidEnvironment | src/ApnsServer.php:145 | a definition of the environment test (1 or 2) with no contract of its own; `Apns.ApnsServer.Push` states its two outcomes |
| Apns.AllowedPushTypes7 | src/ApnsServer.php:80-83 | the accepted push types are exactly alert, background, location, voip, complication, fileprovider and mdm; this documents the list |
| Apns.PushTypeColonFree | src/ApnsServer.php:80-82 | no accepted push type contains a colon |
| Apns.Rethrow | src/ApnsServer.php:158-169 | a response passes through unchanged; a transport failure is re-raised with the same message and code |
| Apns.CertificatePaths | src/ApnsServer.php:45-53 | a single path is checked alone; an array has each of its paths checked |
| Apns.FirstUnreadable | src/ApnsServer.php:45-53 | returns the first unreadable path, or none exactly when every path is readable |
| Apns.ApnsServer.constructor | src/ApnsServer.php:32-59 | given that every certificate path is readable, stores bundle id, certificate and password; push type `voip`; no content; a fresh client with no property set |
| Apns.ApnsServer.Create | src/ApnsServer.php:43-59 | fails exactly when some certificate path is unreadable, naming such a path; otherwise returns a new server with the default state, holding a fresh client with no property set |
| Apns.ApnsServer.SetPushType | src/ApnsServer.php:78-86 | succeeds exactly for the seven accepted types and then stores the type; otherwise fails and leaves the push type unchanged; the header reflects the current type |
| Apns.ApnsServer.AddTitle | src/ApnsServer.php:95-99 | overwrites only the title and returns the same object |
| Apns.ApnsServer.AddSubTitle | src/ApnsServer.php:107-111 | overwrites only `_subTitle` and returns the same object |
| Apns.ApnsServer.AddBody | src/ApnsServer.php:119-123 | overwrites only the body and returns the same object |
| Apns.ApnsServer.AddCustom | src/ApnsServer.php:131-135 | overwrites only the custom array, stored whole, and returns the same object |
| Apns.ApnsServer.Property | src/ApnsServer.php:202-204 | only the exact names of the properties the class assigns can be read (so `_subtitle` reads as unset); a content property reads as set exactly when its setter stored a value, and then as that value |
| Apns.ApnsServer.BuildHeader | src/ApnsServer.php:177-186 | three lines whose names always split out as `apns-topic`, `apns-push-type` and `Content-Type`, in that order, whatever the values hold; the last carries the fixed content type |
| Apns.ApnsServer.AlertAfter | src/ApnsServer.php:195-205 | a definition of the `$alert` array after the `foreach` has visited a list of fields, starting from the default title and body, with no contract of its own. `Apns.ApnsServer.BuildPayLoad` is proved equal to it over the four fields. `Apns.AlertStep`, `Apns.AlertTitleBody`, `Apns.AlertEntries`, `Apns.AlertOverwrite`, `Apns.SubtitleNeverSent` and `Apns.DefaultPayload` state its contents |
| Apns.ApnsServer.Payload | src/ApnsServer.php:208-213 | a definition of the returned array (`aps => alert => …` with `sound` beside `aps`) with no contract of its own; `Apns.ApnsServer.BuildPayLoad` computes it, and `Apns.AlertEntries`, `Apns.AlertOverwrite` and `Apns.DefaultPayload` state its contents |
| Apns.ApnsServer.BuildPayLoad | src/ApnsServer.php:192-214 | the loop over title, subtitle, body and custom returns the payload specified field by field (`AlertAfter`) |
| Apns.ApnsServer.Push | src/ApnsServer.php:142-171 | see the bullets below the table |
| Apns.AlertStep | src/ApnsServer.php:201-205 | each visited field is written under its own name exactly when its property is not `empty` |
| Apns.AlertTitleBody | src/ApnsServer.php:195-205 | after title, subtitle and body, the alert holds title then body: each is the property if not `empty`, else the default |
| Apns.AlertEntries | src/ApnsServer.php:195-206 | see the bullets below the table |
| Apns.SubtitleNeverSent | src/ApnsServer.php:200-204 | whatever `addSubTitle` stored, the alert has no `subtitle` key |
| Apns.AlertOverwrite | src/ApnsServer.php:195-206 | see the bullets below the table |
| Apns.DefaultPayload | src/ApnsServer.php:192-213 | see the bullets below the table |
| Apns.HeaderRoundTrip | src/ApnsServer.php:177-186 | see the bullets below the table |

What the four longer rows state:

- `Apns.ApnsServer.Push`:
  - An environment other than 1 or 2 fails before the client is touched.
  - With an array of certificate paths, the client's certificate
    assignment raises its TypeError. `catch (Exception $e)` does not catch
    it, so `push` fails with that error (`Uncaught`) and the client is
    unchanged. This follows the declared types, as both halves of the
    finding do.
  - With a single path, the client holds the token, the path and the
    password, the parsed header lines, the encoded payload and empty
    options. This follows the corrected half of the finding: a null
    password is accepted.
  - The result is then the re-raised transport answer for the sandbox URL
    (environment 2) or the production URL (environment 1).
  - The builder's own state is unchanged.
- `Apns.AlertEntries`: the whole alert is title, then body, then `custom`.
  - Title and body are each the property if it is not `empty`, otherwise
    the default.
  - `custom` is present only when the custom array is non-empty, and then
    holds the whole array.
  - There is never a subtitle.
- `Apns.AlertOverwrite`: a lookup in the alert finds:
  - for title and body, the property if it is not `empty`, otherwise the
    default;
  - for `custom`, the whole custom array exactly when it is non-empty.
- `Apns.DefaultPayload`: with no title, body or custom set, whatever the
  subtitle, the payload is:
  - `aps => alert => {title: "Default Title", body: "Default Body"}`;
  - `sound => "default"`, next to `aps` rather than inside it.
- `Apns.HeaderRoundTrip`: parsing `_buildHeader`'s lines gives exactly
  `apns-topic => bundleId`, `apns-push-type => pushType` and
  `Content-Type => application/x-www-form-urlencoded`, in that order,
  for every valid server whose bundle id has no colon. No accepted push
  type contains a colon.

## Left out

- `ClientServe::_build`: the Guzzle call, TLS and curl options are foreign
  code. They are the `send` parameter. The response is an opaque value.
- `json_encode`: it is the `encode` parameter. Its failure (it returns
  `false`, which the `string $payload` property would reject) is not
  modelled.
- `is_readable`: it is the `readable` parameter.
- `setClient`: it instantiates a class by a runtime name. The model always
  uses the `ClientServe` made by the constructor.
- Exception message texts, including the array-to-string interpolation in
  the constructor's message. Failures are `Error` values.
- PHP array key normalisation: a header name such as `123` would become an
  integer key. Custom arrays are modelled with string keys only.
- Reading a typed `ClientServe` property before it is set raises an Error
  in PHP. The model reads such a property as unset (`None`), because
  `push` always sets them first. For the same reason, an unset password and
  a null password are both `None`.
- The warnings and deprecations about dynamic properties, and the warning
  for a header line without a colon, are not modelled. The value in that
  case is null, as PHP gives it.
- `Apns.ApnsServer.Property` covers the bundle id, the push type and the
  four content properties. The certificate properties are left out because
  `_buildPayLoad` never reads them by name.

## Findings

| source | as written | input that shows it | evidently intended | confidence | as-written member | corrected member |
|---|---|---|---|---|---|---|
| src/ClientServe.php:22-27 | `$certPassword` is typed non-nullable `string` (documented at line 24 as "only a string"). Yet `setCertificateFile` defaults the password to null (line 42), and so does the `ApnsServer` constructor (src/ApnsServer.php:43). With that default, the assignment at line 45 raises a TypeError. `push` catches only `Exception`, so the TypeError escapes it. | `new ApnsServer("com.example.app", "/path/cert.pem")`, whose password defaults to null, followed by `push($token)` | a server built with the constructor's own default password can push: the password property accepts null, as the two defaults imply. The certificate stays a single path, as line 17 documents. | not executed; high | Client.DeclaredCertificateAssignment | Client.ClientServe.SetCertificateFile |

The rest of the model uses the corrected assignment. With it,
`ApnsServer.Push` reaches the transport for every single certificate path,
with or without a password. An array of paths is refused in both halves,
because the property documents a string (src/ClientServe.php:17). The
constructor nonetheless accepts arrays (src/ApnsServer.php:45-48). Whether
arrays were meant to reach the transport is left open.
