/** The request trust boundary of the marketplace API: the bearer-token gate,
    registration and login, the profile update with its upload checks, job
    creation and lookup, and the payment webhook. The database is an
    in-memory store of map tables; multer's disk writes are the set of paths
    it has written. */
module Api {
  import opened Text
  import opened Crypto
  import opened Uploads

  /** The environment variables the handlers read. */
  datatype Env = Env(jwtSecret: Option<string>, webhookSecret: Option<string>)

  /** `process.env.JWT_SECRET || 'devsecret'`. */
  function JwtSecret(env: Env): (secret: string)
    ensures Truthy(env.jwtSecret) ==> secret == env.jwtSecret.value
    ensures !Truthy(env.jwtSecret) ==> secret == "devsecret"
    ensures secret != ""
  {
    if Truthy(env.jwtSecret) then env.jwtSecret.value else "devsecret"
  }

  /** A row of the User table. */
  datatype User = User(
    id: nat, name: string, email: string, passwordHash: Digest, role: string,
    avatarUrl: Option<string>, cvPath: Option<string>,
    title: Option<string>, skills: Option<string>, bio: Option<string>)

  /** The user as register and login return it. */
  datatype Summary = Summary(id: nat, email: string, name: string, role: string)

  /** The four public fields; the password digest is never part of it. */
  function SummaryOf(u: User): (s: Summary)
    ensures s.id == u.id && s.email == u.email && s.name == u.name && s.role == u.role
  {
    Summary(u.id, u.email, u.name, u.role)
  }

  /** A row of the Job table (`kind` is the column `type`). */
  datatype Job = Job(
    id: nat, title: string, category: Option<string>, kind: Option<string>,
    location: Option<string>, budget: Option<string>, description: Option<string>,
    skills: Option<string>, ownerId: nat)

  /** A row of the Attachment table. */
  datatype Attachment = Attachment(id: nat, filename: string, path: string, jobId: nat)

  /** A file as multer reports it once it has written it to disk. */
  datatype File = File(originalname: string, filename: string, path: string, size: nat, mimetype: string)

  /** A parsed webhook payload, reduced to what the handler reads: whether it
      is `null`, and otherwise its `type` member. */
  datatype Json = Null | Value(typeField: Option<string>)

  /** What a handler sends back. `NoResponse` is an exception thrown outside
      any `try` in an async handler: Express never answers the request. */
  datatype Reply =
    | Failure(status: nat, error: string)
    | Authenticated(token: string, summary: Summary)
    | UserReply(user: User)
    | JobReply(job: Job)
    | Received
    | PlainText(status: nat, text: string)
    | NoResponse

  datatype RegisterBody = RegisterBody(name: Option<string>, email: Option<string>, password: Option<string>, role: Option<string>)
  /** A body member that is used as a database key: JSON can leave it out
      (`undefined`), send `null`, or send a string. */
  datatype KeyField = Absent | JsonNull | Given(value: string)

  datatype LoginBody = LoginBody(email: KeyField, password: Option<string>)
  datatype ProfileFields = ProfileFields(title: Option<string>, skills: Option<string>, bio: Option<string>, avatarUrl: Option<string>, cvPath: Option<string>)
  datatype ProfileRequest = ProfileRequest(authorization: Option<string>, fields: ProfileFields, avatar: Option<File>, cv: Option<File>)
  datatype JobFields = JobFields(
    title: Option<string>, category: Option<string>, kind: Option<string>, location: Option<string>,
    budget: Option<string>, description: Option<string>, skills: Option<string>)
  datatype JobRequest = JobRequest(authorization: Option<string>, fields: JobFields, attachment: Option<File>)

  /** The message of Sequelize's unique-constraint error (duplicate email). */
  const UniqueViolation := "Validation error"
  /** The message of Sequelize's not-null error for a job without a title. */
  const TitleIsNull := "notNull Violation: Job.title cannot be null"

  // ---------------------------------------------------------------- the gate

  /** `header.split(' ')[1]`: the second space-separated word, whatever the
      first one is; `undefined` (here `None`) when there is no space. */
  function BearerToken(header: string): (t: Option<string>)
    ensures t.Some? <==> ' ' in header
  {
    var words := Split(header, ' ');
    if |words| >= 2 then Some(words[1]) else None
  }

  /** The subject of the token the header carries, if it verifies. */
  function Principal(header: string, secret: string, now: nat): Option<nat>
  {
    match BearerToken(header)
    case None => None
    case Some(token) =>
      match Verify(token, secret, now)
      case None => None
      case Some(claims) => Some(claims.sub)
  }

  /** A header names a subject iff its second word verifies, and the subject
      is that token's `sub`. */
  lemma PrincipalSubject(header: string, secret: string, now: nat)
    ensures Principal(header, secret, now).Some?
        <==> BearerToken(header).Some? && Verify(BearerToken(header).value, secret, now).Some?
    ensures Principal(header, secret, now).Some?
        ==> Principal(header, secret, now).value == Verify(BearerToken(header).value, secret, now).value.sub
  {
  }

  datatype GateResult = Allow(user: User) | Deny(reply: Reply)

  /** `authMiddleware`: no (or an empty) Authorization header gives 401
      'no token'; a header whose token is missing, does not verify, or names
      no user gives 401 'invalid token'; only then is the user let through. */
  function Gate(header: Option<string>, users: map<nat, User>, secret: string, now: nat): (g: GateResult)
    ensures !Truthy(header) ==> g == Deny(Failure(401, "no token"))
    ensures Truthy(header) && g.Deny? ==> g == Deny(Failure(401, "invalid token"))
    ensures g.Allow? <==>
      Truthy(header) && var p := Principal(header.value, secret, now); p.Some? && p.value in users
    ensures g.Allow? ==> g.user == users[Principal(header.value, secret, now).value]
  {
    if !Truthy(header) then Deny(Failure(401, "no token"))
    else
      match Principal(header.value, secret, now)
      case None => Deny(Failure(401, "invalid token"))
      case Some(sub) =>
        if sub in users then Allow(users[sub]) else Deny(Failure(401, "invalid token"))
  }

  /** Two space-free words joined by a space: the second is the bearer
      token. */
  lemma BearerWord(scheme: string, token: string)
    requires ' ' !in scheme && ' ' !in token
    ensures BearerToken(scheme + " " + token) == Some(token)
  {
    SplitJoin([scheme, token], ' ');
    assert Join([scheme, token], ' ') == scheme + " " + token;
  }

  /** The scheme word is never checked: any first word without a space works
      as well as "Bearer". */
  lemma {:induction false} GateIgnoresScheme(scheme: string, token: string, users: map<nat, User>, secret: string, now: nat)
    requires ' ' !in scheme && ' ' !in token
    ensures Gate(Some(scheme + " " + token), users, secret, now)
         == Gate(Some("Bearer " + token), users, secret, now)
  {
    SplitJoin([scheme, token], ' ');
    SplitJoin(["Bearer", token], ' ');
    assert Join([scheme, token], ' ') == scheme + " " + token;
    assert Join(["Bearer", token], ' ') == "Bearer " + token;
  }

  /** The header "Bearer " + an issued token names its subject until the
      token expires. */
  lemma PrincipalIssued(sub: nat, secret: string, issued: nat, now: nat)
    ensures Principal("Bearer " + Sign(sub, secret, issued), secret, now)
         == if now < issued + TokenLifetime then Some(sub) else None
  {
    var token := Sign(sub, secret, issued);
    SplitJoin(["Bearer", token], ' ');
    assert Join(["Bearer", token], ' ') == "Bearer " + token;
    assert BearerToken("Bearer " + token) == Some(token);
    SignVerify(sub, secret, issued, now);
  }

  /** A token issued for an existing user is let through until it expires,
      and refused from then on. */
  lemma GateIssuedToken(sub: nat, users: map<nat, User>, secret: string, issued: nat, now: nat)
    requires sub in users
    ensures Gate(Some("Bearer " + Sign(sub, secret, issued)), users, secret, now)
         == if now < issued + TokenLifetime then Allow(users[sub]) else Deny(Failure(401, "invalid token"))
  {
    PrincipalIssued(sub, secret, issued, now);
  }

  /** A token that is not made of dot-separated fields, such as
      "Bearer garbage", is refused. */
  lemma GateRefusesUnsigned(scheme: string, token: string, users: map<nat, User>, secret: string, now: nat)
    requires ' ' !in scheme && ' ' !in token && '.' !in token
    ensures Gate(Some(scheme + " " + token), users, secret, now) == Deny(Failure(401, "invalid token"))
  {
    BearerWord(scheme, token);
  }

  /** A header that is a single word carries no token. */
  lemma GateRefusesOneWord(header: string, users: map<nat, User>, secret: string, now: nat)
    requires header != "" && ' ' !in header
    ensures Gate(Some(header), users, secret, now) == Deny(Failure(401, "invalid token"))
  {
  }

  /** The user the gate lets through is stored under its own id. */
  lemma GateUserIsKey(header: Option<string>, users: map<nat, User>, secret: string, now: nat)
    requires forall id :: id in users ==> users[id].id == id
    requires Gate(header, users, secret, now).Allow?
    ensures Gate(header, users, secret, now).user.id in users
    ensures users[Gate(header, users, secret, now).user.id] == Gate(header, users, secret, now).user
  {
  }

  // ------------------------------------------------------------- the handlers

  /** `name || email.split('@')[0]`. */
  function DefaultName(name: Option<string>, email: string): (n: string)
    ensures Truthy(name) ==> n == name.value
    ensures !Truthy(name) ==>
      && '@' !in n && |n| <= |email| && email[..|n|] == n
      && (|n| < |email| ==> email[|n|] == '@')
  {
    if Truthy(name) then name.value
    else
      var parts := Split(email, '@');
      JoinHead(parts, '@');
      parts[0]
  }

  /** `role || 'freelancer'`. */
  function DefaultRole(role: Option<string>): (r: string)
    ensures Truthy(role) ==> r == role.value
    ensures !Truthy(role) ==> r == "freelancer"
    ensures r != ""
  {
    if Truthy(role) then role.value else "freelancer"
  }

  /** The user row registration creates. */
  function NewUser(id: nat, body: RegisterBody, salt: nat): (u: User)
    requires Truthy(body.email) && Truthy(body.password)
    ensures u.id == id && u.email == body.email.value
    ensures u.name == DefaultName(body.name, body.email.value) && u.role == DefaultRole(body.role)
    ensures forall p :: Compare(p, u.passwordHash) <==> p == body.password.value
    ensures u.avatarUrl.None? && u.cvPath.None? && u.title.None? && u.skills.None? && u.bio.None?
  {
    User(id, DefaultName(body.name, body.email.value), body.email.value,
         Hash(body.password.value, salt), DefaultRole(body.role),
         None, None, None, None, None)
  }

  /** Registration without a name takes the part of the email before the '@';
      without a role, 'freelancer'; the stored hash verifies exactly the
      registered password. */
  lemma {:induction false} NewUserDefaults(id: nat, local: string, domain: string, password: string, other: string, salt: nat)
    requires '@' !in local && password != ""
    ensures var u := NewUser(id, RegisterBody(None, Some(local + "@" + domain), Some(password), Some("")), salt);
      && u.name == local && u.role == "freelancer" && u.email == local + "@" + domain
      && (Compare(other, u.passwordHash) <==> other == password)
  {
    var email := local + "@" + domain;
    IndexOfSeparator(local, '@', domain);
    assert email[..|local|] == local;
  }

  function FileUrl(f: File): string
  {
    "/uploads/" + f.filename
  }

  function FilePaths(f: Option<File>): set<string>
  {
    if f.Some? then {f.value.path} else {}
  }

  /** Merges the text fields of a profile update: each is taken only when it
      is truthy, so an empty or missing value keeps the stored one. */
  function MergeFields(u: User, f: ProfileFields): (m: User)
    ensures m.id == u.id && m.email == u.email && m.name == u.name
    ensures m.passwordHash == u.passwordHash && m.role == u.role
    ensures m.title == (if Truthy(f.title) then f.title else u.title)
    ensures m.skills == (if Truthy(f.skills) then f.skills else u.skills)
    ensures m.bio == (if Truthy(f.bio) then f.bio else u.bio)
    ensures m.avatarUrl == (if Truthy(f.avatarUrl) then f.avatarUrl else u.avatarUrl)
    ensures m.cvPath == (if Truthy(f.cvPath) then f.cvPath else u.cvPath)
    ensures Truthy(u.title) ==> Truthy(m.title)
    ensures Truthy(u.bio) ==> Truthy(m.bio)
  {
    u.(title := if Truthy(f.title) then f.title else u.title,
       skills := if Truthy(f.skills) then f.skills else u.skills,
       bio := if Truthy(f.bio) then f.bio else u.bio,
       avatarUrl := if Truthy(f.avatarUrl) then f.avatarUrl else u.avatarUrl,
       cvPath := if Truthy(f.cvPath) then f.cvPath else u.cvPath)
  }

  /** What `PUT /me` makes of the loaded user: the rejection message of the
      first upload that fails its rules (avatar before CV), or the row to
      save. */
  function ProfileUpdate(u: User, req: ProfileRequest): (r: Result<User>)
    ensures r.Err? <==>
      || (req.avatar.Some? && Validate(AvatarPolicy, req.avatar.value.size, req.avatar.value.mimetype).Reject?)
      || (req.cv.Some? && Validate(CvPolicy, req.cv.value.size, req.cv.value.mimetype).Reject?)
    ensures r.Err? && req.avatar.Some? && Validate(AvatarPolicy, req.avatar.value.size, req.avatar.value.mimetype).Reject?
      ==> r.message == Validate(AvatarPolicy, req.avatar.value.size, req.avatar.value.mimetype).message
    ensures r.Err? && !(req.avatar.Some? && Validate(AvatarPolicy, req.avatar.value.size, req.avatar.value.mimetype).Reject?)
      ==> req.cv.Some? && r.message == Validate(CvPolicy, req.cv.value.size, req.cv.value.mimetype).message
    ensures r.Ok? ==>
      && r.value.id == u.id && r.value.email == u.email && r.value.name == u.name
      && r.value.passwordHash == u.passwordHash && r.value.role == u.role
  {
    var merged := MergeFields(u, req.fields);
    var avatarVerdict := if req.avatar.Some? then Validate(AvatarPolicy, req.avatar.value.size, req.avatar.value.mimetype) else Accept;
    var cvVerdict := if req.cv.Some? then Validate(CvPolicy, req.cv.value.size, req.cv.value.mimetype) else Accept;
    if avatarVerdict.Reject? then Err(avatarVerdict.message)
    else if cvVerdict.Reject? then Err(cvVerdict.message)
    else
      var withAvatar := if req.avatar.Some? then merged.(avatarUrl := Some(FileUrl(req.avatar.value))) else merged;
      Ok(if req.cv.Some? then withAvatar.(cvPath := Some(FileUrl(req.cv.value))) else withAvatar)
  }

  /** An accepted profile update keeps a stored text field unless the new
      value is truthy, and an accepted uploaded file overrides the URL or path
      the body supplies. */
  lemma ProfileFieldRules(u: User, req: ProfileRequest)
    requires ProfileUpdate(u, req).Ok?
    ensures var r := ProfileUpdate(u, req).value;
      && r.title == (if Truthy(req.fields.title) then req.fields.title else u.title)
      && r.skills == (if Truthy(req.fields.skills) then req.fields.skills else u.skills)
      && r.bio == (if Truthy(req.fields.bio) then req.fields.bio else u.bio)
      && (req.avatar.Some? ==> r.avatarUrl == Some("/uploads/" + req.avatar.value.filename))
      && (req.avatar.None? ==> r.avatarUrl == if Truthy(req.fields.avatarUrl) then req.fields.avatarUrl else u.avatarUrl)
      && (req.cv.Some? ==> r.cvPath == Some("/uploads/" + req.cv.value.filename))
      && (req.cv.None? ==> r.cvPath == if Truthy(req.fields.cvPath) then req.fields.cvPath else u.cvPath)
  {
  }

  /** The avatar is checked before the CV: a rejected avatar's message is
      the one reported, whatever the CV. */
  lemma ProfileAvatarFirst(u: User, req: ProfileRequest)
    requires req.avatar.Some?
    requires Validate(AvatarPolicy, req.avatar.value.size, req.avatar.value.mimetype).Reject?
    ensures ProfileUpdate(u, req) == Err(Validate(AvatarPolicy, req.avatar.value.size, req.avatar.value.mimetype).message)
  {
  }

  /** With no avatar, or an accepted one, a rejected CV's message is the one
      reported. */
  lemma ProfileCvRejected(u: User, req: ProfileRequest)
    requires req.avatar.None? || Validate(AvatarPolicy, req.avatar.value.size, req.avatar.value.mimetype) == Accept
    requires req.cv.Some? && Validate(CvPolicy, req.cv.value.size, req.cv.value.mimetype).Reject?
    ensures ProfileUpdate(u, req) == Err(Validate(CvPolicy, req.cv.value.size, req.cv.value.mimetype).message)
  {
  }

  /** The handler body of `PUT /me` on the loaded row `u`: the text fields
      are set one by one, then each uploaded file is checked and its URL set;
      a rejection returns at once. */
  method ApplyProfile(u: User, req: ProfileRequest) returns (r: Result<User>)
    ensures r == ProfileUpdate(u, req)
  {
    var row := u;
    var f := req.fields;
    if Truthy(f.title) { row := row.(title := f.title); }
    if Truthy(f.skills) { row := row.(skills := f.skills); }
    if Truthy(f.bio) { row := row.(bio := f.bio); }
    if Truthy(f.avatarUrl) { row := row.(avatarUrl := f.avatarUrl); }
    if Truthy(f.cvPath) { row := row.(cvPath := f.cvPath); }
    assert row == MergeFields(u, f);
    if req.avatar.Some? {
      var a := req.avatar.value;
      var verdict := Validate(AvatarPolicy, a.size, a.mimetype);
      if verdict.Reject? {
        return Err(verdict.message);
      }
      row := row.(avatarUrl := Some(FileUrl(a)));
    }
    if req.cv.Some? {
      var c := req.cv.value;
      var verdict := Validate(CvPolicy, c.size, c.mimetype);
      if verdict.Reject? {
        return Err(verdict.message);
      }
      row := row.(cvPath := Some(FileUrl(c)));
    }
    r := Ok(row);
  }

  /** The job row job creation inserts. */
  function NewJob(id: nat, f: JobFields, ownerId: nat): (j: Job)
    requires f.title.Some?
    ensures j.id == id && j.ownerId == ownerId && j.title == f.title.value
    ensures j.category == f.category && j.kind == f.kind && j.location == f.location
    ensures j.budget == f.budget && j.description == f.description && j.skills == f.skills
  {
    Job(id, f.title.value, f.category, f.kind, f.location, f.budget, f.description, f.skills, ownerId)
  }

  function AttachmentAdmitted(f: Option<File>): bool
  {
    f.None? || Validate(AttachmentPolicy, f.value.size, f.value.mimetype) == Accept
  }

  /** The job and attachment tables, with the next ids to hand out. */
  datatype JobState = JobState(jobs: map<nat, Job>, attachments: map<nat, Attachment>, nextJobId: nat, nextAttachmentId: nat)

  /** What the job handler did, from the tables `before` to the tables
      `after`, for the authenticated owner `ownerId`: the 8 MiB ceiling (no
      type check), then the Job row, then the Attachment row only when a file
      came with the request. */
  predicate Posted(req: JobRequest, ownerId: nat, before: JobState, after: JobState, reply: Reply)
  {
    && (!AttachmentAdmitted(req.attachment) ==>
          reply == Failure(400, "Attachment too large") && after == before)
    && (AttachmentAdmitted(req.attachment) && req.fields.title.None? ==>
          reply == Failure(500, TitleIsNull) && after == before)
    && (AttachmentAdmitted(req.attachment) && req.fields.title.Some? ==>
          var id := before.nextJobId;
          && id !in before.jobs
          && after.jobs == before.jobs[id := NewJob(id, req.fields, ownerId)]
          && reply == JobReply(after.jobs[id])
          && (req.attachment.None? ==> after.attachments == before.attachments)
          && (req.attachment.Some? ==>
                var aid := before.nextAttachmentId;
                var f := req.attachment.value;
                aid !in before.attachments &&
                after.attachments == before.attachments[aid := Attachment(aid, f.originalname, f.path, id)]))
  }

  /** What a gated profile update did to the user table: a denial is
      answered with the gate's reply, a rejected upload with 400 and its
      message, and neither changes the table; otherwise exactly the caller's
      row is replaced by `ProfileUpdate`. */
  predicate ProfileSaved(g: GateResult, req: ProfileRequest, before: map<nat, User>, after: map<nat, User>, reply: Reply)
  {
    && (g.Deny? ==> reply == g.reply && after == before)
    && (g.Allow? ==>
          match ProfileUpdate(g.user, req)
          case Err(message) => reply == Failure(400, message) && after == before
          case Ok(saved) => reply == UserReply(saved) && after == before[g.user.id := saved])
  }

  /** What a gated job request did to the job tables: a denial is answered
      with the gate's reply and changes nothing; for the user the gate lets
      through, the request is `Posted` with that user as owner. */
  predicate JobHandled(g: GateResult, req: JobRequest, before: JobState, after: JobState, reply: Reply)
  {
    && (g.Deny? ==> reply == g.reply && after == before)
    && (g.Allow? ==> Posted(req, g.user.id, before, after, reply))
  }

  class Server {
    var users: map<nat, User>
    /** The unique index on `User.email`. */
    var emailIndex: map<string, nat>
    var jobs: map<nat, Job>
    var attachments: map<nat, Attachment>
    /** The paths multer has written files to. */
    var disk: set<string>
    var nextUserId: nat
    var nextJobId: nat
    var nextAttachmentId: nat

    /** Primary keys match the rows and are below the next id to hand out;
        the email index is exactly the users' emails (so emails are unique);
        every job's owner and every attachment's job exists. */
    ghost predicate Valid()
      reads this
    {
      && (forall id :: id in users ==> users[id].id == id && id < nextUserId)
      && (forall e :: e in emailIndex ==> emailIndex[e] in users && users[emailIndex[e]].email == e)
      && (forall id :: id in users ==> users[id].email in emailIndex && emailIndex[users[id].email] == id)
      && (forall j :: j in jobs ==> jobs[j].id == j && j < nextJobId && jobs[j].ownerId in users)
      && (forall a :: a in attachments ==> attachments[a].id == a && a < nextAttachmentId && attachments[a].jobId in jobs)
    }

    constructor ()
      ensures Valid()
      ensures users == map[] && emailIndex == map[] && jobs == map[] && attachments == map[] && disk == {}
      ensures nextUserId == 1 && nextJobId == 1 && nextAttachmentId == 1
    {
      users, emailIndex, jobs, attachments := map[], map[], map[], map[];
      disk := {};
      nextUserId, nextJobId, nextAttachmentId := 1, 1, 1;
    }

    /** multer: every received file is written to disk before anything else
        looks at the request. */
    method Receive(a: Option<File>, b: Option<File>)
      modifies this`disk
      ensures disk == old(disk) + FilePaths(a) + FilePaths(b)
    {
      if a.Some? { disk := disk + {a.value.path}; }
      if b.Some? { disk := disk + {b.value.path}; }
    }

    /** `POST /auth/register`. */
    method Register(body: RegisterBody, env: Env, now: nat, salt: nat) returns (reply: Reply)
      requires Valid()
      modifies this
      ensures Valid()
      ensures jobs == old(jobs) && attachments == old(attachments) && disk == old(disk)
      ensures nextJobId == old(nextJobId) && nextAttachmentId == old(nextAttachmentId)
      ensures !Truthy(body.email) || !Truthy(body.password) ==>
        reply == Failure(400, "missing fields") && users == old(users) && emailIndex == old(emailIndex)
        && nextUserId == old(nextUserId)
      ensures Truthy(body.email) && Truthy(body.password) && body.email.value in old(emailIndex) ==>
        reply == Failure(400, UniqueViolation) && users == old(users) && emailIndex == old(emailIndex)
        && nextUserId == old(nextUserId)
      ensures Truthy(body.email) && Truthy(body.password) && body.email.value !in old(emailIndex) ==>
        var id := old(nextUserId);
        && id !in old(users)
        && users == old(users)[id := NewUser(id, body, salt)]
        && emailIndex == old(emailIndex)[body.email.value := id]
        && reply == Authenticated(Sign(id, JwtSecret(env), now), SummaryOf(users[id]))
    {
      if !Truthy(body.email) || !Truthy(body.password) {
        return Failure(400, "missing fields");
      }
      var email := body.email.value;
      if email in emailIndex {
        return Failure(400, UniqueViolation);
      }
      var id := nextUserId;
      var user := NewUser(id, body, salt);
      users := users[id := user];
      emailIndex := emailIndex[email := id];
      nextUserId := nextUserId + 1;
      var token := Sign(user.id, JwtSecret(env), now);
      reply := Authenticated(token, SummaryOf(user));
    }

    /** `POST /auth/login`: an unknown email and a wrong password get the same
        401. A missing email makes the store's lookup throw, while a `null`
        one is looked up as `IS NULL` and matches nobody; a missing password
        makes bcrypt throw. Nothing catches either throw. */
    method Login(body: LoginBody, env: Env, now: nat) returns (reply: Reply)
      requires Valid()
      ensures body.email.Absent? ==> reply == NoResponse
      ensures body.email.JsonNull? ==> reply == Failure(401, "invalid")
      ensures body.email.Given? && body.email.value !in emailIndex ==> reply == Failure(401, "invalid")
      ensures body.email.Given? && body.email.value in emailIndex && body.password.None? ==> reply == NoResponse
      ensures body.email.Given? && body.email.value in emailIndex && body.password.Some?
        && !Compare(body.password.value, users[emailIndex[body.email.value]].passwordHash)
        ==> reply == Failure(401, "invalid")
      ensures reply.Failure? ==> reply == Failure(401, "invalid")
      ensures reply.Authenticated? <==>
        && body.email.Given? && body.email.value in emailIndex && body.password.Some?
        && Compare(body.password.value, users[emailIndex[body.email.value]].passwordHash)
      ensures reply.Authenticated? ==>
        var u := users[emailIndex[body.email.value]];
        && u.email == body.email.value
        && reply.summary == SummaryOf(u)
        && reply.token == Sign(u.id, JwtSecret(env), now)
    {
      if body.email.Absent? {
        return NoResponse;
      }
      if body.email.JsonNull? {
        return Failure(401, "invalid");
      }
      var email := body.email.value;
      if email !in emailIndex {
        return Failure(401, "invalid");
      }
      var user := users[emailIndex[email]];
      if body.password.None? {
        return NoResponse;
      }
      if !Compare(body.password.value, user.passwordHash) {
        return Failure(401, "invalid");
      }
      var token := Sign(user.id, JwtSecret(env), now);
      reply := Authenticated(token, SummaryOf(user));
    }

    /** `GET /me`: the caller's full row. */
    function Me(authorization: Option<string>, env: Env, now: nat): (r: Reply)
      reads this
      requires Valid()
      ensures r.UserReply? <==> Gate(authorization, users, JwtSecret(env), now).Allow?
      ensures r.UserReply? ==> r.user == Gate(authorization, users, JwtSecret(env), now).user && r.user.id in users
      ensures !r.UserReply? ==> r == Gate(authorization, users, JwtSecret(env), now).reply && r.Failure? && r.status == 401
    {
      match Gate(authorization, users, JwtSecret(env), now)
      case Deny(failure) => failure
      case Allow(user) => UserReply(users[user.id])
    }

    /** `PUT /me`. multer writes the files first; then the gate; then the
        handler. */
    method UpdateProfile(req: ProfileRequest, env: Env, now: nat) returns (reply: Reply)
      requires Valid()
      modifies this
      ensures Valid()
      ensures disk == old(disk) + FilePaths(req.avatar) + FilePaths(req.cv)
      ensures emailIndex == old(emailIndex) && jobs == old(jobs) && attachments == old(attachments)
      ensures nextUserId == old(nextUserId) && nextJobId == old(nextJobId) && nextAttachmentId == old(nextAttachmentId)
      ensures ProfileSaved(Gate(req.authorization, old(users), JwtSecret(env), now), req, old(users), users, reply)
    {
      Receive(req.avatar, req.cv);
      reply := GatedProfile(req, env, now);
    }

    /** The gate, then the profile handler on the caller's row: the text
        fields, the avatar and the CV; a rejected upload returns before the
        row is saved. */
    method GatedProfile(req: ProfileRequest, env: Env, now: nat) returns (reply: Reply)
      requires Valid()
      modifies this`users
      ensures Valid()
      ensures ProfileSaved(Gate(req.authorization, old(users), JwtSecret(env), now), req, old(users), users, reply)
    {
      var g := Gate(req.authorization, users, JwtSecret(env), now);
      if g.Deny? {
        return g.reply;
      }
      GateUserIsKey(req.authorization, users, JwtSecret(env), now);
      var result := ApplyProfile(users[g.user.id], req);
      match result
      case Err(message) =>
        reply := Failure(400, message);
      case Ok(saved) =>
        users := users[saved.id := saved];
        reply := UserReply(saved);
    }

    /** `GET /jobs/:id`: public, 404 when there is no such job. */
    function GetJob(id: nat): (r: Reply)
      reads this
      requires Valid()
      ensures r.JobReply? <==> id in jobs
      ensures r.JobReply? ==> r.job == jobs[id] && r.job.id == id
      ensures !r.JobReply? ==> r == Failure(404, "not found")
    {
      if id in jobs then JobReply(jobs[id]) else Failure(404, "not found")
    }

    /** The job and attachment tables, with their next ids. */
    function JobTables(): JobState
      reads this
    {
      JobState(jobs, attachments, nextJobId, nextAttachmentId)
    }

    /** `POST /jobs`. multer writes the attachment first; then the gate; then
        the handler. */
    method CreateJob(req: JobRequest, env: Env, now: nat) returns (reply: Reply)
      requires Valid()
      modifies this
      ensures Valid()
      ensures disk == old(disk) + FilePaths(req.attachment)
      ensures users == old(users) && emailIndex == old(emailIndex) && nextUserId == old(nextUserId)
      ensures JobHandled(Gate(req.authorization, old(users), JwtSecret(env), now), req, old(JobTables()), JobTables(), reply)
    {
      Receive(req.attachment, None);
      assert Valid() && users == old(users) && JobTables() == old(JobTables());
      reply := GatedJob(req, env, now);
    }

    /** The gate, then the job handler for the user it lets through. */
    method GatedJob(req: JobRequest, env: Env, now: nat) returns (reply: Reply)
      requires Valid()
      modifies this`jobs, this`attachments, this`nextJobId, this`nextAttachmentId
      ensures Valid()
      ensures JobHandled(Gate(req.authorization, users, JwtSecret(env), now), req, old(JobTables()), JobTables(), reply)
    {
      var g := Gate(req.authorization, users, JwtSecret(env), now);
      if g.Deny? {
        return g.reply;
      }
      GateUserIsKey(req.authorization, users, JwtSecret(env), now);
      reply := PostJob(req, g.user.id);
    }

    /** The body of the job handler once the gate has let `ownerId` through. */
    method PostJob(req: JobRequest, ownerId: nat) returns (reply: Reply)
      requires Valid() && ownerId in users
      modifies this`jobs, this`attachments, this`nextJobId, this`nextAttachmentId
      ensures Valid()
      ensures Posted(req, ownerId, old(JobTables()), JobTables(), reply)
    {
      if req.attachment.Some? {
        var f := req.attachment.value;
        var verdict := Validate(AttachmentPolicy, f.size, f.mimetype);
        if verdict.Reject? {
          return Failure(400, verdict.message);
        }
      }
      if req.fields.title.None? {
        return Failure(500, TitleIsNull);
      }
      reply := InsertJob(req.fields, ownerId, req.attachment);
    }

    /** `Job.create` followed, when a file came with the request, by
        `Attachment.create` pointing at the new job. */
    method InsertJob(fields: JobFields, ownerId: nat, file: Option<File>) returns (reply: Reply)
      requires Valid() && ownerId in users && fields.title.Some?
      modifies this`jobs, this`attachments, this`nextJobId, this`nextAttachmentId
      ensures Valid()
      ensures var id := old(nextJobId);
        && id !in old(jobs)
        && jobs == old(jobs)[id := NewJob(id, fields, ownerId)]
        && reply == JobReply(jobs[id])
        && (file.None? ==> attachments == old(attachments))
        && (file.Some? ==>
              var aid := old(nextAttachmentId);
              aid !in old(attachments) &&
              attachments == old(attachments)[aid := Attachment(aid, file.value.originalname, file.value.path, id)])
    {
      var id := nextJobId;
      var job := NewJob(id, fields, ownerId);
      jobs := jobs[id := job];
      nextJobId := nextJobId + 1;
      if file.Some? {
        var aid := nextAttachmentId;
        attachments := attachments[aid := Attachment(aid, file.value.originalname, file.value.path, id)];
        nextAttachmentId := nextAttachmentId + 1;
      }
      reply := JobReply(job);
    }
  }

  // ------------------------------------------------------------- the webhook

  /** The `stripe-signature` value Stripe sends for `payload` under `secret`. */
  function StripeSignature(secret: string, payload: string): string
  {
    Mac(secret, payload)
  }

  const NoSignatureHeader := "No stripe-signature header value was provided."
  const NoMatchingSignature := "No signatures found matching the expected signature for payload."

  /** `stripe.webhooks.constructEvent(payload, signature, secret)`: fails
      unless the header is the signature of the payload under the secret, and
      then parses the payload. */
  function ConstructEvent(payload: string, signature: Option<string>, secret: string, parse: string -> Result<Json>): (r: Result<Json>)
    ensures r.Ok? ==> signature == Some(StripeSignature(secret, payload)) && r == parse(payload)
    ensures signature.None? ==> r == Err(NoSignatureHeader)
  {
    match signature
    case None => Err(NoSignatureHeader)
    case Some(header) =>
      if header != StripeSignature(secret, payload) then Err(NoMatchingSignature)
      else parse(payload)
  }

  /** `POST /payments/webhook`. With a (truthy) webhook secret the signature
      is verified; without one the payload is parsed as trusted JSON. The
      caller passes `JSON.parse` as `parse`. */
  function Webhook(payload: string, signature: Option<string>, env: Env, parse: string -> Result<Json>): (r: Reply)
    ensures Truthy(env.webhookSecret) && r.Received? ==>
      signature == Some(StripeSignature(env.webhookSecret.value, payload))
    ensures !Truthy(env.webhookSecret) ==>
      (r.Received? <==> parse(payload).Ok? && parse(payload).value.Value?)
    ensures r.Received? || r.NoResponse? || (r.PlainText? && r.status == 400 && |r.text| >= 15 && r.text[..15] == "Webhook Error: ")
  {
    var event :=
      if Truthy(env.webhookSecret) then ConstructEvent(payload, signature, env.webhookSecret.value, parse)
      else parse(payload);
    match event
    case Err(message) => PlainText(400, "Webhook Error: " + message)
    case Ok(Null) => NoResponse
    case Ok(Value(_)) => Received
  }

  /** With a secret configured, a forged or missing signature is refused with
      400, whatever the payload. */
  lemma WebhookRefusesForgery(payload: string, signature: Option<string>, env: Env, parse: string -> Result<Json>)
    requires Truthy(env.webhookSecret)
    requires signature != Some(StripeSignature(env.webhookSecret.value, payload))
    ensures Webhook(payload, signature, env, parse).PlainText?
    ensures Webhook(payload, signature, env, parse).status == 400
  {
  }

  /** With a secret configured, a correctly signed event is received. */
  lemma WebhookAcceptsSigned(payload: string, env: Env, parse: string -> Result<Json>, kind: Option<string>)
    requires Truthy(env.webhookSecret)
    requires parse(payload) == Ok(Value(kind))
    ensures Webhook(payload, Some(StripeSignature(env.webhookSecret.value, payload)), env, parse) == Received
  {
  }

  /** Without a secret the signature header is ignored altogether. */
  lemma WebhookFallbackIgnoresSignature(payload: string, s1: Option<string>, s2: Option<string>, env: Env, parse: string -> Result<Json>)
    requires !Truthy(env.webhookSecret)
    ensures Webhook(payload, s1, env, parse) == Webhook(payload, s2, env, parse)
  {
  }

  // ------------------------------------------------------------ end to end

  /** For any fresh email and non-empty password: registering gives a token
      that opens the protected profile endpoint, and logging in with the same
      pair succeeds; the endpoint without a header, or with a bearer word that
      is not a signed token (such as "garbage"), is refused. */
  method RegisterLoginScenario(local: string, domain: string, password: string, junk: string, env: Env, now: nat, salt: nat)
    returns (registered: Reply, loggedIn: Reply, me: Reply, anonymous: Reply, garbage: Reply)
    requires '@' !in local && password != ""
    requires ' ' !in junk && '.' !in junk
    ensures registered.Authenticated? && registered.summary.email == local + "@" + domain
    ensures registered.summary.name == local && registered.summary.role == "freelancer"
    ensures loggedIn.Authenticated? && loggedIn.summary == registered.summary
    ensures me.UserReply? && me.user.id == registered.summary.id && me.user.email == local + "@" + domain
    ensures anonymous == Failure(401, "no token")
    ensures garbage == Failure(401, "invalid token")
  {
    var server := new Server();
    var email := local + "@" + domain;
    NewUserDefaults(1, local, domain, password, password, salt);
    registered := server.Register(RegisterBody(None, Some(email), Some(password), None), env, now, salt);
    loggedIn := server.Login(LoginBody(Given(email), Some(password)), env, now);
    GateIssuedToken(1, server.users, JwtSecret(env), now, now);
    me := server.Me(Some("Bearer " + registered.token), env, now);
    anonymous := server.Me(None, env, now);
    GateRefusesUnsigned("Bearer", junk, server.users, JwtSecret(env), now);
    garbage := server.Me(Some("Bearer" + " " + junk), env, now);
  }
}
