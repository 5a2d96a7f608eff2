# Income-getters trust boundary, in Dafny

This project models the request trust boundary of the Income-getters
marketplace backend (`api.js`) and the pure helpers of its browser client
(`app_client_v4.js`), and proves properties of the model.

The server side is a `Server` class. It holds the User, Job and Attachment
tables as maps, the unique index on `User.email`, and the set of paths that
multer has written to `uploads/`. Each route is one method, and each method
returns early on a rejection, as the handlers do:

- `Register` and `Login` cover `/auth/register` and `/auth/login`.
- `Me` covers `GET /me`.
- `UpdateProfile` covers `PUT /me`.
- `CreateJob` covers `POST /jobs`.
- `GetJob` covers `GET /jobs/:id`.

Pure logic is written as functions:

- `Gate` is the bearer-token middleware.
- `Validate` is the upload validator. It takes one policy per upload field.
- `ProfileUpdate` says what `PUT /me` saves.
- `Webhook` and `ConstructEvent` cover `/payments/webhook`.

The three libraries with cryptography are replaced by stand-ins in module
`Crypto`:

- bcrypt becomes `Hash` and `Compare`, an ideal one-way hash: a digest
  verifies exactly its own password.
- jsonwebtoken becomes `Sign` and `Verify`. They take an explicit clock `now`,
  and a token is valid iff its signature matches and `now < exp` (section 4.1.4
  of RFC 7519, with `exp` 7 days after issue).
- Stripe's signature check becomes `ConstructEvent`, a verifier that can fail.

Environment variables are the `Env` parameter, the clock is `now`, and the
bcrypt salt is `salt`.

The handler order is part of the model. On `PUT /me` and `POST /jobs`,
multer runs before the gate. So `UpdateProfile` and `CreateJob` first add
every received file to `disk`, and only then run the gate. An
unauthenticated caller gets the gate's 401 with its file already on disk,
and the upload validator is never reached.

Observations the contracts make explicit:

- The gate takes the second space-separated word of the header and never
  checks the scheme word (`GateIgnoresScheme`).
- An empty header counts as no header.
- `PUT /me` and `GET /me` answer with the whole user row, `passwordHash`
  included. Register and login answer with a four-field summary.
- Three cases throw outside any `try` in an async handler. Express 4 does
  not catch a rejected async handler, so it never answers (`NoResponse`):
  - login with no `email` member: Sequelize 5 and later refuse `undefined`
    in a `where` (an `email` of `null` is looked up as `IS NULL`, matches
    nobody, and gets 401 'invalid');
  - login with a known email and no password: bcrypt refuses to compare `undefined`;
  - a webhook payload that parses to `null`: `event.type` throws.

  On Node 15 and later, with no process-level `unhandledRejection` handler,
  such a rejection ends the whole process instead (see "## Left out").
- A job without a title fails the not-null constraint of `job.js:5` and is
  answered with 500.
- A duplicate email fails the unique constraint of `user.js:6` and is
  answered with 400 and Sequelize's message.

Three more behaviours of the code that the model keeps:

- The token is checked only after multer has parsed and stored the body.
- A missing header and a bad token get two different 401 messages,
  `'no token'` and `'invalid token'`.
- A failed webhook verification is answered as plain text, not as JSON.

On the client side:

- `EscapeHtml` is the three chained global replaces. It is proved equal to
  the per-character reference `EscapeEach`, and `Unescape` gives its input
  back.
- `Truncate` follows `String.prototype.slice`, including negative ends.
- `localStorage` is a `Storage` class with a map field. `SetToken` and
  `SetUser` update it, and `Token` and `CurrentUser` read it.

## Model

| member | source | states |
|---|---|---|
| Text.Split | api.js:15 | `split` with a one-character separator: always at least one part, exactly one iff the separator is absent, no part holds the separator, and joining the parts gives the input back |
| Text.SplitJoin | api.js:15 | splitting words joined by a separator they do not contain gives back the words |
| Crypto.HashCompare | api.js:40 | a bcrypt digest verifies the password it was made from and no other, and two hashes of one password with different salts differ |
| Crypto.Sign | api.js:31 | a signed token contains no space, so it survives the header's `split(' ')` |
| Crypto.Verify | api.js:17 | a token verifies only if its signature is the secret's digest of its claims and `now < exp` |
| Crypto.SignVerify | api.js:42 | a token signed at `issued` verifies with subject `sub` and `exp = issued + 7 days` exactly while `now < issued + 7 days`, and is refused afterwards |
| Crypto.OtherSecret | api.js:17 | a token verifies under another secret only if that secret gives the same digest of its claims |
| Uploads.Validate | api.js:62-74 | accepted iff size ≤ limit and the type is allowed; the size rule comes first (too large wins), then the type rule |
| Uploads.AvatarRules | api.js:64-65 | avatar: 2 MiB accepted, above 2 MiB 'Avatar too large' whatever the type, otherwise anything but png/jpeg 'Invalid avatar type' |
| Uploads.CvRules | api.js:70-71 | CV: above 5 MiB 'CV too large', otherwise anything but application/pdf 'CV must be PDF' |
| Uploads.AttachmentRules | api.js:96-98 | job attachment: rejected iff above 8 MiB with 'Attachment too large'; the type never matters |
| Api.JwtSecret | api.js:17 | the configured JWT secret when it is non-empty, otherwise 'devsecret'; never empty |
| Api.PrincipalSubject | api.js:15-17 | a subject iff the header's second word exists and verifies, and it is that token's `sub` |
| Api.BearerToken | api.js:15 | there is a token word iff the header contains a space |
| Api.Gate | api.js:12-22 | no or empty header gives 401 'no token'; otherwise any failure gives 401 'invalid token'; the user is let through iff the token verifies and its subject is a user, and that user is the one attached |
| Api.GateIgnoresScheme | api.js:15 | any space-free first word is treated exactly like "Bearer" |
| Api.GateIssuedToken | api.js:17-20 | a token issued for an existing user lets that user through until it expires, and gives 401 'invalid token' afterwards |
| Api.GateRefusesUnsigned | api.js:17-21 | a bearer word that is not a signed token (such as "garbage") gives 401 'invalid token' |
| Api.GateRefusesOneWord | api.js:15-17 | a one-word header carries no token and gives 401 'invalid token' |
| Api.DefaultName | api.js:30 | a truthy name is kept; otherwise the name is the longest '@'-free prefix of the email, followed in the email by '@' unless it is the whole email |
| Api.DefaultRole | api.js:30 | a truthy role is kept, otherwise 'freelancer'; the role is never empty |
| Api.NewUser | api.js:30 | the new row has the given id and email, the defaulted name and role, a digest that verifies exactly the registered password, and no profile fields |
| Api.SummaryOf | api.js:32 | the summary has the row's id, email, name and role, and no password digest |
| Api.NewUserDefaults | api.js:30 | without a name the user is named after the part of the email before '@'; without a role it is 'freelancer'; the stored hash verifies the registered password and no other |
| Api.MergeFields | api.js:57-61 | each text field takes the body's value only when it is truthy and keeps the stored one otherwise; id, email, name, digest and role are untouched; a truthy stored title or bio is never erased |
| Api.ProfileUpdate | api.js:56-73 | the update is rejected iff the avatar or the CV breaks its rules, with the rejected avatar's message if there is one and otherwise the rejected CV's; an accepted update never changes id, email, name, passwordHash or role |
| Api.ApplyProfile | api.js:56-73 | the field-by-field handler body, with its early returns, computes exactly `ProfileUpdate` |
| Api.ProfileFieldRules | api.js:57-72 | text fields change only when the new value is truthy; an accepted avatar or CV sets '/uploads/' + filename, overriding the body's value |
| Api.ProfileAvatarFirst | api.js:62-74 | a rejected avatar's message is reported, whether or not a CV was sent and whatever the CV |
| Api.ProfileCvRejected | api.js:68-73 | with no avatar or an accepted one, a rejected CV's message is reported |
| Api.Server.Receive | api.js:53 | multer adds every received file's path to disk |
| Api.Server.Register | api.js:25-34 | missing email or password gives 400 'missing fields' and creates nothing; a taken email gives 400 with the constraint message and creates nothing; otherwise exactly one row is added under a fresh id, the index is updated, and the reply carries a token for that id and the summary without passwordHash |
| Api.Server.Login | api.js:36-44 | an unknown email, a `null` email and a wrong password all give the same 401 'invalid'; a missing email member, or a known email without a password, throws and gets no response; success iff the email is known and the password matches its digest, and then the token's subject is that user's id and the summary is that user's |
| Api.Server.Me | api.js:47-50 | the caller's row iff the gate lets them through (it is the row the gate attached), otherwise exactly the gate's 401 reply |
| Api.Server.UpdateProfile | api.js:53-77 | files reach disk before the gate; a denied caller gets the gate's reply and nothing changes; a rejected upload gives 400 with its message and nothing is saved; otherwise exactly the caller's row is replaced by `ProfileUpdate`; the tables stay consistent |
| Api.Server.GatedProfile | api.js:54-76 | after the gate: a denied caller gets the gate's reply; a rejected upload gives 400 with its message and the table is unchanged; otherwise exactly the caller's row is replaced by `ProfileUpdate` of that row |
| Api.Server.GetJob | api.js:85-89 | the job iff its id is in the table, otherwise 404 'not found' |
| Api.Server.CreateJob | api.js:92-105 | the file reaches disk before the gate; a denied caller gets the gate's reply and no row is created; otherwise the handler runs with the authenticated user as owner |
| Api.Server.GatedJob | api.js:92-105 | after the gate: a denied caller gets the gate's reply and the job tables are unchanged; otherwise the handler runs with the user the gate let through as owner |
| Api.Server.PostJob | api.js:93-104 | an attachment over 8 MiB gives 400 and no row; a missing title gives 500 and no row; otherwise one Job row owned by the caller and, only with a file, one Attachment row pointing at that job |
| Api.NewJob | api.js:99 | the Job row carries the fresh id, the owner, the title and every other body field as sent |
| Api.Server.InsertJob | api.js:99-102 | the Job row gets a fresh id, and an Attachment row with `jobId` set to that id is added iff a file is present |
| Api.ConstructEvent | api.js:142 | an event is returned only when the signature header is the payload's signature under the secret; a missing header fails |
| Api.Webhook | api.js:135-152 | with a secret configured, an event is received only with a matching signature; without one, it is received iff the payload parses to a non-null value; any other outcome is either a 400 text reply starting 'Webhook Error: ' or no response (a null event) |
| Api.WebhookRefusesForgery | api.js:141-149 | with a secret configured, a missing or wrong signature is refused with 400 |
| Api.WebhookAcceptsSigned | api.js:141-151 | with a secret configured, a correctly signed event is received |
| Api.WebhookFallbackIgnoresSignature | api.js:143-145 | without a secret, the signature header makes no difference |
| Api.RegisterLoginScenario | api.js:25-50 | register then login with the same pair both succeed; the issued token opens `GET /me` for the new user; no header or a junk token gives 401 |
| Client.EscapeHtml | app_client_v4.js:11 | the three chained replaces equal the per-character escape of `String(s or '')`, and a falsy input gives '' |
| Client.PassesEscapeEach | app_client_v4.js:11 | replacing '&' first, then '<', then '>' escapes every character exactly once |
| Client.EscapeEachConcat | app_client_v4.js:11 | escaping works character by character: it distributes over concatenation |
| Client.EscapeEachNoBrackets | app_client_v4.js:11 | the output never contains '<' or '>' |
| Client.EscapeEachLength | app_client_v4.js:11 | output length = input length + 4·#'&' + 3·#'<' + 3·#'>' |
| Client.UnescapeEscape | app_client_v4.js:11 | decoding the three entities gives the input back, so nothing is escaped twice or lost |
| Client.Truncate | app_client_v4.js:12 | unchanged when the length is ≤ len; for 1 ≤ len < length, the first len−1 characters then '…', of length exactly len |
| Client.TruncateIdempotent | app_client_v4.js:12 | for len ≥ 0, truncating twice is truncating once |
| Client.TruncateNegativeNotIdempotent | app_client_v4.js:12 | for a negative len, a second truncation shortens the text again |
| Client.TruncateCutsEntity | app_client_v4.js:26 | truncating after escaping can cut an entity in half |
| Client.Token | app_client_v4.js:4 | the stored token iff there is an `ig_token` entry, and then exactly its text |
| Client.SetToken | app_client_v4.js:5 | afterwards `token()` is the token if it was truthy, and otherwise nothing; other keys are untouched |
| Client.SetUser | app_client_v4.js:7 | afterwards `currentUser()` returns exactly the user given, or null; other keys are untouched |
| Client.UserRoundTrip | app_client_v4.js:6-7 | decoding an encoded user gives it back |
| Client.CurrentUser | app_client_v4.js:6 | null when there is no `ig_user` entry or its text does not parse; otherwise the decoding of the stored text |
| Client.UnparsableUser | app_client_v4.js:6 | stored text that does not parse reads back as null |

## Left out

- bcrypt, jsonwebtoken and Stripe internals (api.js:6-9). They are foreign cryptographic libraries. `Hash` is an ideal one-way function. `Mac` is a 32-bit checksum standing in for HMAC-SHA256. The token is four dot-separated decimal fields, not base64url JSON.
- Crypto.HashCompare: the digest is ideal. Real bcrypt reads only the first 72 bytes of a password, so two passwords that share their first 72 bytes verify against each other's digest. Neither this lemma nor the "no other password" part of `Api.NewUserDefaults` and `Api.NewUser` holds for such passwords.
- Crypto.Mac: not collision-resistant. No proved property relies on signatures being unforgeable.
- Crypto.Verify: checks only the signature and `exp`. jsonwebtoken's header, algorithm, `nbf` and leeway are not modelled.
- Stripe's signature header: it is modelled as a single signature value. Its `t=…,v1=…` format and the timestamp tolerance are not modelled.
- Api.Webhook: assumes the request body is the raw payload, for example from an `express.raw` parser mounted ahead of this router, which the code shown does not contain. If `express.json()` parsed the body first, `constructEvent` would always fail and `payload.toString()` would be "[object Object]", so every call would get 400.
- `JSON.parse` of the webhook payload is the parameter `parse`. Only null versus non-null and the `type` member are modelled.
- JSON on the client is replaced by a length-prefixed record codec with the same round-trip property. It covers only the register/login summary shape, not the full row that `PUT /me` returns.
- multer parsing: more than one file per field, multer's own errors and the random file names are not modelled. A file appears as its reported metadata.
- Express routing and Sequelize persistence are not modelled; the tables are in-memory maps. Data-layer failures are not modelled: `u.save()` or `findByPk` failing, and the 500 and 401 replies they would cause.
- `GET /jobs` and its `createdAt` ordering is database behaviour.
- `GET /jobs/:id` takes a numeric id. How sqlite compares a non-numeric or zero-padded id string is not modelled.
- Logging: the webhook's `console.error` (api.js:147) and `console.log` (api.js:150) write to the console only and change no reply, so they are not modelled.
- `/payments/create-checkout` (api.js:120-132) is a thin wrapper over a remote Stripe call.
- The messaging endpoints (api.js:108-117) are unchecked pass-through. Note that `POST /messages` has no gate.
- The client's DOM, `fetch` and event wiring (app_client_v4.js:14-136), `seed.js`, and the model files beyond their record shapes.
- `NoResponse` assumes Express 4 (a rejected async handler is never answered) and Sequelize 5 or later (`undefined` in a `where` throws). Express 5 would answer those requests with 500.
- `NoResponse` also assumes Node before 15, or a process-level `unhandledRejection` handler. Without one, Node 15 and later turn the unhandled rejection into an uncaught exception and the process exits. The three `NoResponse` cases then stop the server for every client: login with body `{}` (api.js:38), login with a known email and no password (api.js:40), and a `null` webhook payload when no webhook secret is set (api.js:144, 150). The first and last need no credential. The model does not represent the process ending.
- `undefined` and JSON `null` are told apart only for the login email, the one member used as a lookup key. Elsewhere both are `None`. Every other use either tests truthiness or, like bcrypt with the password, throws on both, so the two behave alike there. A body field of another JSON type (number, object) is not modelled.
- Client.Truncate: models a string `s` only. With `null` or `undefined`, the source returns it unchanged for len ≥ 0 and throws for len < 0. Lengths count characters, not UTF-16 code units.
- `process.env` is not read: secrets are the `Env` parameter, the clock is `now`, and bcrypt's random salt is `salt`.
