/**
 * The server kernel (`Kernel` in api/kernel.php) as a state machine over an abstract store:
 * each table is a field, `$_SESSION` is a map, and each public operation is a method.
 * The clock, the random token and the decoded Google claims are parameters.
 */
module Api {
  import opened Options
  import opened KernelTypes
  import opened Tokens
  import opened Scoring
  import opened Cards

  const VerificationLifetime := 7200  // '+2 hours'
  const ResetLifetime := 3600         // '+1 hour'
  const GoogleProvider := "google"
  const FirstIdeaBadge := "primeira_ideia"
  const InitialStatus := "EM_ELABORACAO"
  const ActiveCampaign := "ATIVA"
  const GoogleIssuers := {"https://accounts.google.com", "accounts.google.com"}

  datatype SignupOk = SignupOk(id: int, email: string, verifyLink: string)
  datatype LoginOk = LoginOk(id: int, email: string, name: string, register: string, emailVerified: bool)
  datatype GoogleOk = GoogleOk(id: int, email: string, name: string)
  datatype IdeaCreated = IdeaCreated(id: int, scoreAi: int, compatAi: int)
  datatype IdeaDetail = IdeaDetail(idea: Idea, comments: seq<Comment>)
  /** The JSON body of `updateIdea`; absent keys are `None`. */
  datatype UpdatePayload = UpdatePayload(id: Option<int>, title: Option<string>, description: Option<string>)
  /** What `listCommentsTextsByIdea` keeps of a comment. */
  datatype CommentText = CommentText(text: string, createdAt: int)

  /** The link written for the user in place of an email. */
  function VerifyLink(uid: nat, token: string): string {
    "http://localhost:8000/api/index.php?route=auth/verify&uid=" + NatToString(uid) + "&token=" + token
  }

  /** Index of the user row with this email (`SELECT id FROM users WHERE email = ?`). */
  function FindUserByEmail(users: seq<User>, email: string): (r: Option<nat>)
    ensures r.Some? ==> r.value < |users| && users[r.value].email == email
    ensures r.None? <==> forall k :: 0 <= k < |users| ==> users[k].email != email
  {
    if users == [] then None
    else if users[|users| - 1].email == email then Some(|users| - 1)
    else FindUserByEmail(users[..|users| - 1], email)
  }

  /** `SELECT COUNT(*) FROM ideas WHERE author_id = ?`. */
  function IdeasBy(ideas: seq<Idea>, uid: int): (n: nat)
    ensures n <= |ideas|
    ensures n == 0 <==> forall k :: 0 <= k < |ideas| ==> ideas[k].authorId != uid
  {
    if ideas == [] then 0
    else IdeasBy(ideas[..|ideas| - 1], uid) + (if ideas[|ideas| - 1].authorId == uid then 1 else 0)
  }

  /** The distinct users who voted for idea `id`. */
  function Voters(votes: set<(int, int)>, id: int): set<int> {
    set v | v in votes && v.0 == id :: v.1
  }

  /** A vote adds its voter to the idea's voters and changes no other idea's voters. */
  lemma VoteAddsVoter(votes: set<(int, int)>, id: int, uid: int, other: int)
    ensures Voters(votes + {(id, uid)}, id) == Voters(votes, id) + {uid}
    ensures other != id ==> Voters(votes + {(id, uid)}, other) == Voters(votes, other)
  {
    assert uid in Voters(votes + {(id, uid)}, id);
  }

  /** A repeated vote leaves the count unchanged; a first vote raises it by exactly one. */
  lemma VoteCountStep(votes: set<(int, int)>, id: int, uid: int)
    ensures (id, uid) in votes ==> |Voters(votes + {(id, uid)}, id)| == |Voters(votes, id)|
    ensures (id, uid) !in votes ==> |Voters(votes + {(id, uid)}, id)| == |Voters(votes, id)| + 1
  {
    VoteAddsVoter(votes, id, uid, id);
    if (id, uid) !in votes {
      assert uid !in Voters(votes, id);
    } else {
      assert votes + {(id, uid)} == votes;
    }
  }

  /** The comments of one idea (`WHERE idea_id = ?`), in insertion order. */
  function CommentsOf(comments: seq<Comment>, id: int): (r: seq<Comment>)
    ensures forall c :: c in r <==> c in comments && c.ideaId == id
    ensures IsSubsequence(r, comments)
  {
    FilterIsSubsequence(comments, (c: Comment) => c.ideaId == id);
    Filter(comments, (c: Comment) => c.ideaId == id)
  }

  /**
   * The loop of `listCommentsTextsByIdea`: walking the rows in `created_at` order and
   * overwriting per author leaves each author mapped to their last comment.
   */
  method LastCommentPerUser(rows: seq<Comment>) returns (result: map<int, CommentText>)
    ensures forall u :: u in result <==> exists k :: 0 <= k < |rows| && rows[k].userId == u
    ensures forall u :: u in result ==>
      exists k :: 0 <= k < |rows| && rows[k].userId == u &&
        result[u] == CommentText(rows[k].text, rows[k].createdAt) &&
        forall j :: k < j < |rows| ==> rows[j].userId != u
  {
    result := map[];
    for n := 0 to |rows|
      invariant forall u :: u in result <==> exists k :: 0 <= k < n && rows[k].userId == u
      invariant forall u :: u in result ==>
        exists k :: 0 <= k < n && rows[k].userId == u &&
          result[u] == CommentText(rows[k].text, rows[k].createdAt) &&
          forall j :: k < j < n ==> rows[j].userId != u
    {
      result := result[rows[n].userId := CommentText(rows[n].text, rows[n].createdAt)];
    }
  }

  class Kernel {
    var users: seq<User>
    var emailVerifications: seq<TokenRow>
    var passwordResets: seq<TokenRow>
    /** `oauth_identities`: (provider, provider_user_id) to user id, unique per key. */
    var oauthIdentities: map<(string, string), int>
    var campaigns: seq<Campaign>
    var ideas: seq<Idea>
    /** `idea_votes`: (idea id, user id), unique per pair. */
    var votes: set<(int, int)>
    var comments: seq<Comment>
    /** `user_badges`: (user id, badge code), unique per pair. */
    var userBadges: set<(int, string)>
    var session: map<string, SessionValue>

    /**
     * The constraints the schema enforces (unique emails, foreign keys to `users` and `ideas`),
     * and comments stored in `created_at` order, since the clock never goes backwards.
     */
    ghost predicate Valid()
      reads this
    {
      && (forall a, b :: 0 <= a < b < |users| ==> users[a].email != users[b].email)
      && (forall k :: 0 <= k < |emailVerifications| ==> 1 <= emailVerifications[k].userId <= |users|)
      && (forall k :: 0 <= k < |passwordResets| ==> 1 <= passwordResets[k].userId <= |users|)
      && (forall key :: key in oauthIdentities ==> 1 <= oauthIdentities[key] <= |users|)
      && (forall v :: v in votes ==> 1 <= v.0 <= |ideas| && 1 <= v.1 <= |users|)
      && ("uid" in session ==> session["uid"].IntValue? && 1 <= session["uid"].i <= |users|)
      && (forall a, b :: 0 <= a < b < |comments| ==> comments[a].createdAt <= comments[b].createdAt)
    }

    /** `isset($_SESSION['uid'])` and its value. */
    function SessionUid(): (r: Option<int>)
      reads this
      ensures r.Some? <==> "uid" in session && session["uid"].IntValue?
    {
      if "uid" in session && session["uid"].IntValue? then Some(session["uid"].i) else None
    }

    /** An empty store with no session. */
    constructor ()
      ensures Valid()
      ensures users == [] && emailVerifications == [] && passwordResets == []
      ensures oauthIdentities == map[] && campaigns == [] && ideas == [] && votes == {}
      ensures comments == [] && userBadges == {} && session == map[]
    {
      users, emailVerifications, passwordResets := [], [], [];
      oauthIdentities, campaigns, ideas, votes := map[], [], [], {};
      comments, userBadges, session := [], {}, map[];
    }

    /** `signup`: a new unverified user with a hashed password and a 2-hour verification token. */
    method Signup(email: string, password: string, name: string, token: string, now: int)
      returns (r: Result<SignupOk>)
      requires Valid()
      modifies this`users, this`emailVerifications
      ensures Valid()
      ensures (email == "" || password == "") ==> r == Err(DadosInvalidos)
      ensures email != "" && password != "" && FindUserByEmail(old(users), email).Some? ==>
        r == Err(EmailExistente)
      ensures r.Err? ==> users == old(users) && emailVerifications == old(emailVerifications)
      ensures r.Ok? <==> email != "" && password != "" && FindUserByEmail(old(users), email).None?
      ensures r.Ok? ==>
        && r.value == SignupOk(|old(users)| + 1, email, VerifyLink(|old(users)| + 1, token))
        && users == old(users) + [User(email, NullIfFalsy(name), Some(HashPassword(password)), false, None)]
        && emailVerifications ==
             old(emailVerifications) + [Issue(|old(users)| + 1, token, now, VerificationLifetime)]
    {
      if email == "" || password == "" {
        return Err(DadosInvalidos);
      }
      if FindUserByEmail(users, email).Some? {
        return Err(EmailExistente);
      }
      users := users + [User(email, NullIfFalsy(name), Some(HashPassword(password)), false, None)];
      var uid := |users|;
      emailVerifications := emailVerifications + [Issue(uid, token, now, VerificationLifetime)];
      r := Ok(SignupOk(uid, email, VerifyLink(uid, token)));
    }

    /** `login`: one answer for an unknown email and for a wrong password. */
    method Login(email: string, password: string) returns (r: Result<LoginOk>)
      requires Valid()
      modifies this`session
      ensures Valid()
      ensures r.Ok? <==>
        exists k :: 0 <= k < |users| && users[k].email == email && PasswordVerify(password, users[k].passwordHash)
      ensures r.Err? ==> r.error == CredenciaisInvalidas && session == old(session)
      ensures r.Ok? ==> 1 <= r.value.id <= |users|
      ensures r.Ok? ==>
        var u := users[r.value.id - 1];
        && u.email == email
        && r.value == LoginOk(r.value.id, email, u.name.GetOr(""), u.register.GetOr(""), u.emailVerified)
        && session == old(session)["uid" := IntValue(r.value.id)]["name" := TextValue(u.name.GetOr(""))]
                                  ["email" := TextValue(email)]["register" := TextValue(u.register.GetOr(""))]
    {
      var found := FindUserByEmail(users, email);
      if found.None? {
        return Err(CredenciaisInvalidas);
      }
      var k := found.value;
      var u := users[k];
      if !PasswordVerify(password, u.passwordHash) {
        return Err(CredenciaisInvalidas);
      }
      var uid := k + 1;
      session := session["uid" := IntValue(uid)]["name" := TextValue(u.name.GetOr(""))]
                        ["email" := TextValue(email)]["register" := TextValue(u.register.GetOr(""))];
      r := Ok(LoginOk(uid, email, u.name.GetOr(""), u.register.GetOr(""), u.emailVerified));
    }

    /** `logout`: the session is emptied. */
    method Logout()
      requires Valid()
      modifies this`session
      ensures Valid() && session == map[]
    {
      session := map[];
    }

    /** `verifyEmail`: consume the user's latest verification row and mark the email verified. */
    method VerifyEmail(uid: int, token: string, now: int) returns (r: Result<()>)
      requires Valid()
      modifies this`users, this`emailVerifications
      ensures Valid()
      ensures r.Ok? <==> CheckToken(old(emailVerifications), uid, HashToken(token), now).Ok?
      ensures r.Err? ==>
        && r.error == CheckToken(old(emailVerifications), uid, HashToken(token), now).error
        && users == old(users) && emailVerifications == old(emailVerifications)
      ensures r.Ok? ==>
        var i := CheckToken(old(emailVerifications), uid, HashToken(token), now).value;
        && 1 <= uid <= |users|
        && emailVerifications == MarkUsed(old(emailVerifications), i, now)
        && users == old(users)[uid - 1 := old(users)[uid - 1].(emailVerified := true)]
    {
      var check := CheckToken(emailVerifications, uid, HashToken(token), now);
      if check.Err? {
        return Err(check.error);
      }
      emailVerifications := MarkUsed(emailVerifications, check.value, now);
      users := users[uid - 1 := users[uid - 1].(emailVerified := true)];
      r := Ok(());
    }

    /** `requestPasswordReset`: always `ok`; a known email gets a 1-hour reset row. */
    method RequestPasswordReset(email: string, token: string, now: int) returns (r: Result<()>)
      requires Valid()
      modifies this`passwordResets
      ensures Valid()
      ensures r == Ok(())
      ensures FindUserByEmail(users, email).None? ==> passwordResets == old(passwordResets)
      ensures FindUserByEmail(users, email).Some? ==>
        passwordResets ==
          old(passwordResets) + [Issue(FindUserByEmail(users, email).value + 1, token, now, ResetLifetime)]
    {
      var found := FindUserByEmail(users, email);
      if found.Some? {
        passwordResets := passwordResets + [Issue(found.value + 1, token, now, ResetLifetime)];
      }
      r := Ok(());
    }

    /** `resetPassword`: an empty password is refused before any token lookup. */
    method ResetPassword(uid: int, token: string, password: string, now: int) returns (r: Result<()>)
      requires Valid()
      modifies this`users, this`passwordResets
      ensures Valid()
      ensures password == "" ==> r == Err(SenhaInvalida)
      ensures r.Ok? <==> password != "" && CheckToken(old(passwordResets), uid, HashToken(token), now).Ok?
      ensures password != "" && r.Err? ==>
        r.error == CheckToken(old(passwordResets), uid, HashToken(token), now).error
      ensures r.Err? ==> users == old(users) && passwordResets == old(passwordResets)
      ensures r.Ok? ==>
        var i := CheckToken(old(passwordResets), uid, HashToken(token), now).value;
        && 1 <= uid <= |users|
        && passwordResets == MarkUsed(old(passwordResets), i, now)
        && users == old(users)[uid - 1 := old(users)[uid - 1].(passwordHash := Some(HashPassword(password)))]
    {
      if password == "" {
        return Err(SenhaInvalida);
      }
      var check := CheckToken(passwordResets, uid, HashToken(token), now);
      if check.Err? {
        return Err(check.error);
      }
      users := users[uid - 1 := users[uid - 1].(passwordHash := Some(HashPassword(password)))];
      passwordResets := MarkUsed(passwordResets, check.value, now);
      r := Ok(());
    }

    /**
     * `loginWithGoogle` after the tokeninfo call: `claims` is the decoded answer, `None` when
     * the call failed. Validation happens before any change to the store.
     */
    method LoginWithGoogle(claims: Option<map<string, string>>, clientId: string) returns (r: Result<GoogleOk>)
      requires Valid()
      modifies this`users, this`oauthIdentities, this`session
      ensures Valid()
      ensures claims.None? ==> r == Err(TokenInvalido)
      ensures claims.Some? && Claim(claims.value, "aud") != clientId ==> r == Err(AudInvalido)
      ensures claims.Some? && Claim(claims.value, "aud") == clientId && Claim(claims.value, "iss") !in GoogleIssuers ==>
        r == Err(IssInvalido)
      ensures (claims.Some? && Claim(claims.value, "aud") == clientId && Claim(claims.value, "iss") in GoogleIssuers &&
               "email" !in claims.value) ==> r == Err(EmailAusente)
      ensures r.Err? ==> users == old(users) && oauthIdentities == old(oauthIdentities) && session == old(session)
      ensures r.Ok? <==>
        claims.Some? && Claim(claims.value, "aud") == clientId && Claim(claims.value, "iss") in GoogleIssuers &&
        "email" in claims.value
      ensures r.Ok? ==>
        var key := (GoogleProvider, Claim(claims.value, "sub"));
        && r.value.email == claims.value["email"]
        && 1 <= r.value.id <= |users|
        && key in oauthIdentities && oauthIdentities[key] == r.value.id
        && session == old(session)["uid" := IntValue(r.value.id)]["email" := TextValue(r.value.email)]
                                  ["name" := TextValue(r.value.name)]
      // an existing link is reused and nothing is stored
      ensures r.Ok? && (GoogleProvider, Claim(claims.value, "sub")) in old(oauthIdentities) ==>
        && users == old(users) && oauthIdentities == old(oauthIdentities)
        && r.value.id == old(oauthIdentities)[(GoogleProvider, Claim(claims.value, "sub"))]
        && r.value.name == users[r.value.id - 1].name.GetOr("")
      // otherwise a same-email user is linked
      ensures (r.Ok? && (GoogleProvider, Claim(claims.value, "sub")) !in old(oauthIdentities) &&
               FindUserByEmail(old(users), claims.value["email"]).Some?) ==>
        && users == old(users)
        && r.value.id == FindUserByEmail(old(users), claims.value["email"]).value + 1
        && oauthIdentities == old(oauthIdentities)[(GoogleProvider, Claim(claims.value, "sub")) := r.value.id]
        && r.value.name == Claim(claims.value, "name")
      // otherwise a verified, password-less user is created and linked
      ensures (r.Ok? && (GoogleProvider, Claim(claims.value, "sub")) !in old(oauthIdentities) &&
               FindUserByEmail(old(users), claims.value["email"]).None?) ==>
        && users == old(users) + [User(claims.value["email"], Some(Claim(claims.value, "name")), None, true, None)]
        && r.value.id == |users|
        && oauthIdentities == old(oauthIdentities)[(GoogleProvider, Claim(claims.value, "sub")) := r.value.id]
        && r.value.name == Claim(claims.value, "name")
    {
      if claims.None? {
        return Err(TokenInvalido);
      }
      var data := claims.value;
      if Claim(data, "aud") != clientId {
        return Err(AudInvalido);
      }
      if Claim(data, "iss") !in GoogleIssuers {
        return Err(IssInvalido);
      }
      if "email" !in data {
        return Err(EmailAusente);
      }
      var email := data["email"];
      var uid, name := LinkGoogleIdentity(Claim(data, "sub"), email, Claim(data, "name"));
      session := session["uid" := IntValue(uid)]["email" := TextValue(email)]["name" := TextValue(name)];
      r := Ok(GoogleOk(uid, email, name));
    }

    /**
     * The account a verified Google identity logs in to: the linked user, else the user
     * with that email (now linked), else a new verified user without a password (linked).
     */
    method LinkGoogleIdentity(sub: string, email: string, claimedName: string) returns (uid: int, name: string)
      requires Valid()
      modifies this`users, this`oauthIdentities
      ensures Valid()
      ensures 1 <= uid <= |users|
      ensures (GoogleProvider, sub) in oauthIdentities && oauthIdentities[(GoogleProvider, sub)] == uid
      ensures (GoogleProvider, sub) in old(oauthIdentities) ==>
        && users == old(users) && oauthIdentities == old(oauthIdentities)
        && uid == old(oauthIdentities)[(GoogleProvider, sub)]
        && name == users[uid - 1].name.GetOr("")
      ensures (GoogleProvider, sub) !in old(oauthIdentities) && FindUserByEmail(old(users), email).Some? ==>
        && users == old(users)
        && uid == FindUserByEmail(old(users), email).value + 1
        && oauthIdentities == old(oauthIdentities)[(GoogleProvider, sub) := uid]
        && name == claimedName
      ensures (GoogleProvider, sub) !in old(oauthIdentities) && FindUserByEmail(old(users), email).None? ==>
        && users == old(users) + [User(email, Some(claimedName), None, true, None)]
        && uid == |users|
        && oauthIdentities == old(oauthIdentities)[(GoogleProvider, sub) := uid]
        && name == claimedName
    {
      if (GoogleProvider, sub) in oauthIdentities {
        uid := oauthIdentities[(GoogleProvider, sub)];
        name := users[uid - 1].name.GetOr("");
      } else {
        var found := FindUserByEmail(users, email);
        if found.None? {
          users := users + [User(email, Some(claimedName), None, true, None)];
          uid := |users|;
        } else {
          uid := found.value + 1;
        }
        oauthIdentities := oauthIdentities[(GoogleProvider, sub) := uid];
        name := claimedName;
      }
    }

    /** `createIdea`: authenticated authors only; the first idea earns the `primeira_ideia` badge. */
    method CreateIdea(title: string, description: string, campaignId: Option<int>) returns (r: Result<IdeaCreated>)
      requires Valid()
      modifies this`ideas, this`userBadges
      ensures Valid()
      ensures SessionUid().None? ==> r == Err(NaoAutenticado)
      ensures SessionUid().Some? && (title == "" || description == "") ==> r == Err(DadosInvalidos)
      ensures (SessionUid().Some? && title != "" && description != "" &&
               campaignId.Some? && !(1 <= campaignId.value <= |campaigns|)) ==> r == Err(StorageFailure)
      ensures r.Ok? <==>
        SessionUid().Some? && title != "" && description != "" &&
        (campaignId.None? || 1 <= campaignId.value <= |campaigns|)
      ensures r.Err? ==> ideas == old(ideas) && userBadges == old(userBadges)
      ensures r.Ok? ==>
        var uid := SessionUid().value;
        var ai := ComputeAI(title, description, campaignId, campaigns);
        && r.value == IdeaCreated(|ideas|, ai.score, ai.compat)
        && ideas == old(ideas) + [Idea(title, description, campaignId, uid, InitialStatus, ai.score, ai.compat)]
        && userBadges == old(userBadges) + (if IdeasBy(old(ideas), uid) == 0 then {(uid, FirstIdeaBadge)} else {})
    {
      var uid := SessionUid();
      if uid.None? {
        return Err(NaoAutenticado);
      }
      if title == "" || description == "" {
        return Err(DadosInvalidos);
      }
      var ai := ComputeAI(title, description, campaignId, campaigns);
      if campaignId.Some? && !(1 <= campaignId.value <= |campaigns|) {
        return Err(StorageFailure);
      }
      ideas := ideas + [Idea(title, description, campaignId, uid.value, InitialStatus, ai.score, ai.compat)];
      var id := |ideas|;
      var count := IdeasBy(ideas, uid.value);
      if count == 1 {
        // a duplicate (user, badge) row is refused by the key and the error swallowed
        userBadges := userBadges + {(uid.value, FirstIdeaBadge)};
      }
      r := Ok(IdeaCreated(id, ai.score, ai.compat));
    }

    /** `voteIdea`: a set insertion, so a repeated vote is a silent no-op. */
    method VoteIdea(id: int) returns (r: Result<nat>)
      requires Valid()
      modifies this`votes
      ensures Valid()
      ensures SessionUid().None? ==> r == Err(NaoAutenticado) && votes == old(votes)
      ensures SessionUid().Some? ==>
        && votes == old(votes) + (if 1 <= id <= |ideas| then {(id, SessionUid().value)} else {})
        && r == Ok(|Voters(votes, id)|)
    {
      var uid := SessionUid();
      if uid.None? {
        return Err(NaoAutenticado);
      }
      if 1 <= id <= |ideas| {
        votes := votes + {(id, uid.value)};
      }
      r := Ok(|Voters(votes, id)|);
    }

    /** `commentIdea`: returns the idea with its comments, the new one included. */
    method CommentIdea(id: int, text: string, parentId: Option<int>, now: int) returns (r: Result<IdeaDetail>)
      requires Valid()
      requires forall k :: 0 <= k < |comments| ==> comments[k].createdAt <= now
      modifies this`comments
      ensures Valid()
      ensures SessionUid().None? ==> r == Err(NaoAutenticado)
      ensures SessionUid().Some? && text == "" ==> r == Err(DadosInvalidos)
      ensures SessionUid().Some? && text != "" && !(1 <= id <= |ideas|) ==> r == Err(StorageFailure)
      ensures r.Ok? <==> SessionUid().Some? && text != "" && 1 <= id <= |ideas|
      ensures r.Err? ==> comments == old(comments)
      ensures r.Ok? ==>
        && 1 <= id <= |ideas|
        && comments == old(comments) + [Comment(id, SessionUid().value, text, parentId, now)]
        && r.value == IdeaDetail(ideas[id - 1], CommentsOf(comments, id))
    {
      var uid := SessionUid();
      if uid.None? {
        return Err(NaoAutenticado);
      }
      if text == "" {
        return Err(DadosInvalidos);
      }
      if !(1 <= id <= |ideas|) {
        return Err(StorageFailure);
      }
      comments := comments + [Comment(id, uid.value, text, parentId, now)];
      r := Ok(IdeaDetail(ideas[id - 1], CommentsOf(comments, id)));
    }

    /** `updateIdea`: `missing_id`, then `no_fields`; only the fields present are written. */
    method UpdateIdea(payload: UpdatePayload) returns (r: Result<()>)
      requires Valid()
      modifies this`ideas
      ensures Valid()
      ensures payload.id.None? ==> r == Err(MissingId)
      ensures payload.id.Some? && payload.title.None? && payload.description.None? ==> r == Err(NoFields)
      ensures r.Ok? <==> payload.id.Some? && (payload.title.Some? || payload.description.Some?)
      ensures |ideas| == |old(ideas)|
      ensures forall k :: 0 <= k < |ideas| && (r.Err? || k + 1 != payload.id.value) ==> ideas[k] == old(ideas)[k]
      ensures r.Ok? && 1 <= payload.id.value <= |ideas| ==>
        var before := old(ideas)[payload.id.value - 1];
        ideas[payload.id.value - 1] ==
          before.(title := payload.title.GetOr(before.title), description := payload.description.GetOr(before.description))
    {
      if payload.id.None? {
        return Err(MissingId);
      }
      if payload.title.None? && payload.description.None? {
        return Err(NoFields);
      }
      var id := payload.id.value;
      if 1 <= id <= |ideas| {
        var before := ideas[id - 1];
        ideas := ideas[id - 1 := before.(title := payload.title.GetOr(before.title),
                                         description := payload.description.GetOr(before.description))];
      }
      r := Ok(());
    }

    /** `createCampaign`: an empty title is refused; falsy description and deadline become NULL. */
    method CreateCampaign(title: string, description: string, deadline: Option<string>) returns (r: Result<int>)
      requires Valid()
      modifies this`campaigns
      ensures Valid()
      ensures r.Err? <==> title == ""
      ensures r.Err? ==> r.error == DadosInvalidos && campaigns == old(campaigns)
      ensures r.Ok? ==>
        && r.value == |campaigns|
        && campaigns == old(campaigns) +
             [Campaign(title, NullIfFalsy(description), if deadline.Some? then NullIfFalsy(deadline.value) else None, ActiveCampaign)]
    {
      if title == "" {
        return Err(DadosInvalidos);
      }
      var d := if deadline.Some? then NullIfFalsy(deadline.value) else None;
      campaigns := campaigns + [Campaign(title, NullIfFalsy(description), d, ActiveCampaign)];
      r := Ok(|campaigns|);
    }

    /** `listCommentsTextsByIdea`: each author of a comment on `id`, mapped to their last one. */
    method ListCommentsTextsByIdea(id: int) returns (result: map<int, CommentText>)
      ensures var rows := CommentsOf(comments, id);
        forall u :: u in result <==> exists k :: 0 <= k < |rows| && rows[k].userId == u
      ensures var rows := CommentsOf(comments, id);
        forall u :: u in result ==>
        exists k :: 0 <= k < |rows| && rows[k].userId == u &&
          result[u] == CommentText(rows[k].text, rows[k].createdAt) &&
          forall j :: k < j < |rows| ==> rows[j].userId != u
    {
      var rows := CommentsOf(comments, id);
      result := LastCommentPerUser(rows);
    }
  }

  /** Verifying twice with the same token: once the first call succeeds, the second reports `token_usado`. */
  method VerifyTwice(k: Kernel, uid: int, token: string, now: int, later: int)
    returns (first: Result<()>, second: Result<()>)
    requires k.Valid()
    modifies k`users, k`emailVerifications
    ensures k.Valid()
    ensures first.Ok? ==> second == Err(TokenUsado)
  {
    ghost var before := k.emailVerifications;
    first := k.VerifyEmail(uid, token, now);
    second := k.VerifyEmail(uid, token, later);
    if first.Ok? {
      ReplayIsUsed(before, uid, HashToken(token), now, HashToken(token), later);
    }
  }

  /** Resetting twice with the same token: the second call reports `token_usado`. */
  method ResetTwice(k: Kernel, uid: int, token: string, password: string, again: string, now: int, later: int)
    returns (first: Result<()>, second: Result<()>)
    requires k.Valid()
    requires again != ""
    modifies k`users, k`passwordResets
    ensures k.Valid()
    ensures first.Ok? ==> second == Err(TokenUsado)
  {
    ghost var before := k.passwordResets;
    first := k.ResetPassword(uid, token, password, now);
    second := k.ResetPassword(uid, token, again, later);
    if first.Ok? {
      ReplayIsUsed(before, uid, HashToken(token), now, HashToken(token), later);
    }
  }

  /** The link a signup returns verifies the account at any time up to two hours later. */
  method SignupThenVerify(k: Kernel, email: string, password: string, name: string, token: string, now: int, later: int)
    returns (signup: Result<SignupOk>, verify: Result<()>)
    requires k.Valid()
    requires later <= now + VerificationLifetime
    modifies k`users, k`emailVerifications
    ensures k.Valid()
    ensures signup.Ok? ==> verify.Ok?
    ensures signup.Ok? ==> 1 <= signup.value.id <= |k.users| && k.users[signup.value.id - 1].emailVerified
  {
    signup := k.Signup(email, password, name, token, now);
    if signup.Ok? {
      FreshTokenAccepted(old(k.emailVerifications), signup.value.id, token, now, VerificationLifetime, later);
    }
    verify := k.VerifyEmail(if signup.Ok? then signup.value.id else 0, token, later);
  }

  /** A second signup with the same email is refused and adds no user. */
  method SignupTwice(k: Kernel, email: string, password: string, password2: string, name: string,
                     token: string, token2: string, now: int)
    returns (first: Result<SignupOk>, second: Result<SignupOk>)
    requires k.Valid()
    requires password2 != ""
    modifies k`users, k`emailVerifications
    ensures k.Valid()
    ensures first.Ok? ==> second == Err(EmailExistente) && |k.users| == |old(k.users)| + 1
  {
    first := k.Signup(email, password, name, token, now);
    second := k.Signup(email, password2, name, token2, now);
  }

  /** Voting twice on the same idea stores one vote and reports the same count both times. */
  method VoteTwice(k: Kernel, id: int) returns (first: Result<nat>, second: Result<nat>)
    requires k.Valid()
    modifies k`votes
    ensures k.Valid()
    ensures first == second
    ensures first.Ok? && k.SessionUid().Some? && 1 <= id <= |k.ideas| ==>
      |Voters(k.votes, id)| == |Voters(old(k.votes), id)| + (if (id, k.SessionUid().value) in old(k.votes) then 0 else 1)
  {
    first := k.VoteIdea(id);
    second := k.VoteIdea(id);
    if first.Ok? && 1 <= id <= |k.ideas| {
      VoteCountStep(old(k.votes), id, k.SessionUid().value);
    }
  }

  /** An account that Google login created has no password hash, so no password logs it in. */
  method GoogleAccountHasNoPassword(k: Kernel, claims: Option<map<string, string>>, clientId: string, password: string)
    returns (google: Result<GoogleOk>, login: Result<LoginOk>)
    requires k.Valid()
    modifies k`users, k`oauthIdentities, k`session
    ensures k.Valid()
    ensures (google.Ok? && |k.users| == |old(k.users)| + 1) ==> login == Err(CredenciaisInvalidas)
  {
    google := k.LoginWithGoogle(claims, clientId);
    login := k.Login(if google.Ok? then google.value.email else "", password);
  }

  /** After a successful reset, the new password logs in and reports the same account. */
  method ResetThenLogin(k: Kernel, uid: int, token: string, password: string, now: int)
    returns (reset: Result<()>, login: Result<LoginOk>)
    requires k.Valid()
    modifies k`users, k`passwordResets, k`session
    ensures k.Valid()
    ensures reset.Ok? ==> login.Ok? && login.value.id == uid
  {
    reset := k.ResetPassword(uid, token, password, now);
    var email := if 1 <= uid <= |k.users| then k.users[uid - 1].email else "";
    login := k.Login(email, password);
  }

  /**
   * Two ideas in a row by the same author: both are stored, and the first-idea badge is
   * granted by the first at most, never by the second.
   */
  method CreateIdeaTwice(k: Kernel, title: string, description: string, campaignId: Option<int>)
    returns (first: Result<IdeaCreated>, second: Result<IdeaCreated>)
    requires k.Valid()
    modifies k`ideas, k`userBadges
    ensures k.Valid()
    ensures first.Ok? == second.Ok?
    ensures first.Ok? ==> k.SessionUid().Some?
    ensures first.Ok? ==>
      var uid := k.SessionUid().value;
      && |k.ideas| == |old(k.ideas)| + 2
      && second.value.id == first.value.id + 1
      && k.userBadges == old(k.userBadges) + (if IdeasBy(old(k.ideas), uid) == 0 then {(uid, FirstIdeaBadge)} else {})
  {
    first := k.CreateIdea(title, description, campaignId);
    second := k.CreateIdea(title, description, campaignId);
  }

  /** A comment just posted is what the per-author listing then reports for its author. */
  method CommentThenList(k: Kernel, id: int, text: string, parentId: Option<int>, now: int)
    returns (comment: Result<IdeaDetail>, listing: map<int, CommentText>)
    requires k.Valid()
    requires forall j :: 0 <= j < |k.comments| ==> k.comments[j].createdAt <= now
    modifies k`comments
    ensures k.Valid()
    ensures comment.Ok? ==> k.SessionUid().Some?
    ensures comment.Ok? ==>
      k.SessionUid().value in listing && listing[k.SessionUid().value] == CommentText(text, now)
  {
    comment := k.CommentIdea(id, text, parentId, now);
    listing := k.ListCommentsTextsByIdea(id);
    if comment.Ok? {
      var uid := k.SessionUid().value;
      var c := Comment(id, uid, text, parentId, now);
      CommentsOfAppend(old(k.comments), c, id);
      var rows := CommentsOf(k.comments, id);
      assert rows[|rows| - 1] == c;
      assert uid in listing;
    }
  }

  /** Appending a comment on `id` appends it to that idea's comments. */
  lemma CommentsOfAppend(comments: seq<Comment>, c: Comment, id: int)
    requires c.ideaId == id
    ensures CommentsOf(comments + [c], id) == CommentsOf(comments, id) + [c]
  {
    FilterAppend(comments, [c], (x: Comment) => x.ideaId == id);
  }

  /** `$data[key] ?? ''`. */
  function Claim(data: map<string, string>, key: string): string {
    if key in data then data[key] else ""
  }
}
