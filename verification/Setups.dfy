/** Pending two-factor enrolments: one map by user, one by session, meant to be inverse. */
module Setups {
  import opened Wrappers

  datatype Pending = Pending(userId: string, secret: string, expiresAt: Time, sessionHash: string)

  datatype Setups = Setups(byUser: map<string, Pending>, bySession: map<string, string>)

  const NO_SETUPS := Setups(map[], map[])

  function Begin(s: Setups, value: Pending): Setups {
    var bySession := if value.userId in s.byUser then s.bySession - {s.byUser[value.userId].sessionHash}
      else s.bySession;
    Setups(s.byUser[value.userId := value], bySession[value.sessionHash := value.userId])
  }

  function Remove(s: Setups, value: Pending): Setups {
    Setups(s.byUser - {value.userId}, s.bySession - {value.sessionHash})
  }

  function Cancel(s: Setups, hash: string): Setups {
    if hash in s.bySession && s.bySession[hash] in s.byUser && s.byUser[s.bySession[hash]].sessionHash == hash
    then Remove(s, s.byUser[s.bySession[hash]])
    else s
  }

  /** Each map undoes the other. */
  ghost predicate Inverse(s: Setups) {
    && (forall u | u in s.byUser ::
          && s.byUser[u].userId == u
          && s.byUser[u].sessionHash in s.bySession
          && s.bySession[s.byUser[u].sessionHash] == u)
    && (forall h | h in s.bySession :: s.bySession[h] in s.byUser && s.byUser[s.bySession[h]].sessionHash == h)
  }

  /** Every session in the maps belongs, according to `owner`, to the user it is filed under. */
  ghost predicate Owned(s: Setups, owner: map<string, string>) {
    forall h | h in s.bySession :: h in owner && owner[h] == s.bySession[h]
  }

  /** Begin keeps the maps inverse because a session hash never changes its owner. */
  lemma BeginKeepsInverse(s: Setups, value: Pending, owner: map<string, string>)
    requires Inverse(s) && Owned(s, owner)
    requires value.sessionHash in owner && owner[value.sessionHash] == value.userId
    ensures Inverse(Begin(s, value)) && Owned(Begin(s, value), owner)
    ensures var t := Begin(s, value);
            && t.byUser == s.byUser[value.userId := value]
            && t.bySession[value.sessionHash] == value.userId
  {
  }

  /** That fact is exactly what is needed: beginning keeps inverse maps inverse if and only if the
      session, where it is already on file, is on file for the same user. */
  lemma BeginKeepsInverseExactly(s: Setups, value: Pending)
    requires Inverse(s)
    ensures Inverse(Begin(s, value)) <==>
            (value.sessionHash in s.bySession ==> s.bySession[value.sessionHash] == value.userId)
  {
    var t := Begin(s, value);
    if value.sessionHash in s.bySession && s.bySession[value.sessionHash] != value.userId {
      var u := s.bySession[value.sessionHash];
      assert u in t.byUser && t.byUser[u].sessionHash == value.sessionHash;
      assert t.bySession[value.sessionHash] == value.userId;
    }
  }

  /** And it can be missing: a hash on file for one user and begun for another leaves the first
      user's setup pointing at the second. */
  lemma BeginNeedsStableOwners()
    ensures exists s: Setups, value: Pending :: Inverse(s) && !Inverse(Begin(s, value))
  {
    var s, value := Begin(NO_SETUPS, Pending("first", "s", 0, "h")), Pending("second", "t", 0, "h");
    assert s.bySession["h"] == "first";
    BeginKeepsInverseExactly(s, value);
  }

  lemma RemoveKeepsInverse(s: Setups, value: Pending)
    requires Inverse(s) && value.userId in s.byUser && s.byUser[value.userId] == value
    ensures Inverse(Remove(s, value)) && value.userId !in Remove(s, value).byUser
    ensures forall h | h in Remove(s, value).bySession ::
              h in s.bySession && Remove(s, value).bySession[h] == s.bySession[h]
    ensures forall u | u in s.byUser && u != value.userId ::
              u in Remove(s, value).byUser && Remove(s, value).byUser[u] == s.byUser[u]
  {
  }

  /** In inverse maps the hash comparison of CancelSetup always succeeds once an entry is found,
      so cancelling removes exactly the setup begun from that session and no newer one. */
  lemma CancelIsExact(s: Setups, hash: string)
    requires Inverse(s)
    ensures hash in s.bySession ==> s.bySession[hash] in s.byUser && s.byUser[s.bySession[hash]].sessionHash == hash
    ensures Inverse(Cancel(s, hash)) && hash !in Cancel(s, hash).bySession
    ensures forall u | u in s.byUser ::
              if s.byUser[u].sessionHash == hash then u !in Cancel(s, hash).byUser
              else u in Cancel(s, hash).byUser && Cancel(s, hash).byUser[u] == s.byUser[u]
    ensures forall u | u in Cancel(s, hash).byUser :: u in s.byUser
    ensures forall h | h in Cancel(s, hash).bySession ::
              h in s.bySession && Cancel(s, hash).bySession[h] == s.bySession[h]
  {
    if hash in s.bySession {
      RemoveKeepsInverse(s, s.byUser[s.bySession[hash]]);
    }
  }
}
