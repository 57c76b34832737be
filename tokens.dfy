/**
 * Single-use, time-limited tokens (email verification and password reset). Only the most
 * recently issued row of a user (the highest id) is ever consulted.
 */
module Tokens {
  import opened Options
  import opened KernelTypes

  /** Row `i` is the one `ORDER BY id DESC LIMIT 1` returns for `uid`. */
  ghost predicate IsLatest(rows: seq<TokenRow>, uid: int, i: int) {
    0 <= i < |rows| && rows[i].userId == uid &&
    forall j :: i < j < |rows| ==> rows[j].userId != uid
  }

  ghost predicate NoRowFor(rows: seq<TokenRow>, uid: int) {
    forall j :: 0 <= j < |rows| ==> rows[j].userId != uid
  }

  lemma LatestIsUnique(rows: seq<TokenRow>, uid: int, i: int, j: int)
    requires IsLatest(rows, uid, i) && IsLatest(rows, uid, j)
    ensures i == j
  {
  }

  /** The index of `uid`'s most recent row, if it has one. */
  function LatestIndex(rows: seq<TokenRow>, uid: int): (r: Option<nat>)
    ensures r.Some? ==> IsLatest(rows, uid, r.value)
    ensures r.None? <==> NoRowFor(rows, uid)
  {
    if rows == [] then None
    else if rows[|rows| - 1].userId == uid then Some(|rows| - 1)
    else LatestIndex(rows[..|rows| - 1], uid)
  }

  /**
   * The checks of `verifyEmail` and `resetPassword`, in their order: no row, already used,
   * expired (`now > expires_at`), hash mismatch. On success, the index of the row to consume.
   */
  function CheckToken(rows: seq<TokenRow>, uid: int, supplied: Digest, now: int): (r: Result<nat>)
    ensures r.Ok? <==>
      exists i :: IsLatest(rows, uid, i) && rows[i].usedAt.None? && now <= rows[i].expiresAt &&
                  rows[i].tokenHash == supplied
    ensures r.Ok? ==> IsLatest(rows, uid, r.value)
    ensures r == Err(TokenUsado) <==> exists i :: IsLatest(rows, uid, i) && rows[i].usedAt.Some?
    ensures r == Err(TokenExpirado) <==>
      exists i :: IsLatest(rows, uid, i) && rows[i].usedAt.None? && now > rows[i].expiresAt
    ensures r == Err(TokenInvalido) <==>
      NoRowFor(rows, uid) ||
      exists i :: IsLatest(rows, uid, i) && rows[i].usedAt.None? && now <= rows[i].expiresAt &&
                  rows[i].tokenHash != supplied
    ensures r.Err? ==> r.error in {TokenInvalido, TokenUsado, TokenExpirado}
  {
    match LatestIndex(rows, uid)
    case None => Err(TokenInvalido)
    case Some(i) =>
      if rows[i].usedAt.Some? then Err(TokenUsado)
      else if now > rows[i].expiresAt then Err(TokenExpirado)
      else if rows[i].tokenHash != supplied then Err(TokenInvalido)
      else Ok(i)
  }

  /** `UPDATE ... SET used_at = NOW() WHERE id = ?` on row `i`. */
  function MarkUsed(rows: seq<TokenRow>, i: nat, now: int): (r: seq<TokenRow>)
    requires i < |rows|
    ensures |r| == |rows| && r[i] == rows[i].(usedAt := Some(now))
    ensures forall j :: 0 <= j < |rows| ==> r[j].userId == rows[j].userId
    ensures forall j :: 0 <= j < |rows| && j != i ==> r[j] == rows[j]
  {
    rows[i := rows[i].(usedAt := Some(now))]
  }

  /** A freshly issued row for `uid`, expiring `lifetime` seconds after `now`. */
  function Issue(uid: int, token: string, now: int, lifetime: int): TokenRow {
    TokenRow(uid, HashToken(token), now + lifetime, None)
  }

  /** Replaying a token that was just accepted gives `token_usado`, whatever token and time. */
  lemma ReplayIsUsed(rows: seq<TokenRow>, uid: int, supplied: Digest, now: int, again: Digest, later: int)
    requires CheckToken(rows, uid, supplied, now).Ok?
    ensures CheckToken(MarkUsed(rows, CheckToken(rows, uid, supplied, now).value, now), uid, again, later) == Err(TokenUsado)
  {
    var i := CheckToken(rows, uid, supplied, now).value;
    var rows' := MarkUsed(rows, i, now);
    assert IsLatest(rows', uid, i);
  }

  /** A row just appended for `uid` accepts its own token up to and including its expiry. */
  lemma FreshTokenAccepted(rows: seq<TokenRow>, uid: int, token: string, now: int, lifetime: int, at: int)
    requires at <= now + lifetime
    ensures CheckToken(rows + [Issue(uid, token, now, lifetime)], uid, HashToken(token), at) == Ok(|rows|)
  {
    var rows' := rows + [Issue(uid, token, now, lifetime)];
    assert IsLatest(rows', uid, |rows|);
  }

  /** A token is accepted at exactly `expires_at` and refused one second later. */
  lemma ExpiryBoundary(rows: seq<TokenRow>, uid: int, supplied: Digest, i: nat)
    requires IsLatest(rows, uid, i) && rows[i].usedAt.None? && rows[i].tokenHash == supplied
    ensures CheckToken(rows, uid, supplied, rows[i].expiresAt) == Ok(i)
    ensures CheckToken(rows, uid, supplied, rows[i].expiresAt + 1) == Err(TokenExpirado)
  {
    var r := CheckToken(rows, uid, supplied, rows[i].expiresAt);
    assert r.Ok?;
    LatestIsUnique(rows, uid, i, r.value);
  }

  /**
   * A row issued earlier is unreachable once a newer row exists for the same user: its
   * token is refused unless it happens to equal the newest row's token.
   */
  lemma OlderTokenUnreachable(rows: seq<TokenRow>, uid: int, j: nat, now: int)
    requires j < |rows| && rows[j].userId == uid
    requires exists i :: IsLatest(rows, uid, i) && i != j && rows[i].tokenHash != rows[j].tokenHash
    ensures CheckToken(rows, uid, rows[j].tokenHash, now).Err?
  {
    var i :| IsLatest(rows, uid, i) && i != j && rows[i].tokenHash != rows[j].tokenHash;
    if CheckToken(rows, uid, rows[j].tokenHash, now).Ok? {
      LatestIsUnique(rows, uid, i, CheckToken(rows, uid, rows[j].tokenHash, now).value);
    }
  }
}
