/** The user filter of GetChannelUsersAsync. */
module ChannelUsers {
  import opened Entities

  /** The loop's condition, exactly as the code writes it. */
  predicate Kept(m: DiscordMember, includeBots: bool) {
    !m.isCurrent || includeBots || !m.isBot
  }

  /** The rule the comment above that condition describes: always skip the
      current user, and skip bots unless they are included. */
  predicate CommentRule(m: DiscordMember, includeBots: bool) {
    !m.isCurrent && (includeBots || !m.isBot)
  }

  /** The ids of the kept users, in channel order. */
  function KeptIds(users: seq<DiscordMember>, includeBots: bool): (ids: seq<uint64>)
    ensures |ids| <= |users|
  {
    if users == [] then []
    else
      var last := users[|users| - 1];
      KeptIds(users[..|users| - 1], includeBots) + (if Kept(last, includeBots) then [last.id] else [])
  }

  /** The positions of the kept users, ascending. */
  function KeptPositions(users: seq<DiscordMember>, includeBots: bool): (p: seq<nat>)
    ensures forall k :: 0 <= k < |p| ==> p[k] < |users| && Kept(users[p[k]], includeBots)
    ensures forall k, l :: 0 <= k < l < |p| ==> p[k] < p[l]
    ensures forall j :: 0 <= j < |users| && Kept(users[j], includeBots) ==> j in p
  {
    if users == [] then []
    else
      var n := |users| - 1;
      KeptPositions(users[..n], includeBots) + (if Kept(users[n], includeBots) then [n] else [])
  }

  /** The foreach loop of GetChannelUsersAsync, appending to the result builder. */
  method FilterUsers(users: seq<DiscordMember>, includeBots: bool) returns (ids: seq<uint64>)
    ensures ids == KeptIds(users, includeBots)
  {
    ids := [];
    for i := 0 to |users|
      invariant ids == KeptIds(users[..i], includeBots)
    {
      var member := users[i];
      assert users[..i + 1][..i] == users[..i];
      if !member.isCurrent || includeBots || !member.isBot {
        ids := ids + [member.id];
      }
    }
    assert users[..|users|] == users;
  }

  /** An id is in the result iff some user with that id satisfies the condition. */
  lemma {:induction false} KeptIdsMembership(users: seq<DiscordMember>, includeBots: bool, x: uint64)
    ensures x in KeptIds(users, includeBots)
            <==> exists i :: 0 <= i < |users| && users[i].id == x && Kept(users[i], includeBots)
  {
    if users != [] {
      var n := |users| - 1;
      var init := users[..n];
      KeptIdsMembership(init, includeBots, x);
      if x in KeptIds(users, includeBots) {
        if x in KeptIds(init, includeBots) {
          var i :| 0 <= i < |init| && init[i].id == x && Kept(init[i], includeBots);
          assert users[i] == init[i];
        } else {
          assert users[n].id == x && Kept(users[n], includeBots);
        }
      }
      if exists i :: 0 <= i < |users| && users[i].id == x && Kept(users[i], includeBots) {
        var i :| 0 <= i < |users| && users[i].id == x && Kept(users[i], includeBots);
        if i < n {
          assert init[i] == users[i];
        }
      }
    }
  }

  /** The result lists exactly the kept users' ids, in the order the channel lists them. */
  lemma {:induction false} KeptIdsFollowPositions(users: seq<DiscordMember>, includeBots: bool)
    ensures |KeptIds(users, includeBots)| == |KeptPositions(users, includeBots)|
    ensures forall k :: 0 <= k < |KeptIds(users, includeBots)| ==>
              KeptIds(users, includeBots)[k] == users[KeptPositions(users, includeBots)[k]].id
  {
    if users != [] {
      var n := |users| - 1;
      var init := users[..n];
      KeptIdsFollowPositions(init, includeBots);
      forall k | 0 <= k < |KeptPositions(init, includeBots)|
        ensures users[KeptPositions(init, includeBots)[k]] == init[KeptPositions(init, includeBots)[k]]
      {
      }
    }
  }

  /** Filtering a channel's user list piecewise gives the same result. */
  lemma {:induction false} KeptIdsAppend(u: seq<DiscordMember>, v: seq<DiscordMember>, includeBots: bool)
    ensures KeptIds(u + v, includeBots) == KeptIds(u, includeBots) + KeptIds(v, includeBots)
  {
    if v == [] {
      assert u + v == u;
    } else {
      var n := |v| - 1;
      KeptIdsAppend(u, v[..n], includeBots);
      assert (u + v)[..|u + v| - 1] == u + v[..n];
    }
  }

  /** Every user other than the current one is kept, bots included, whatever includeBots says. */
  lemma {:induction false} NonCurrentUsersAlwaysKept(users: seq<DiscordMember>, includeBots: bool, i: nat)
    requires i < |users| && !users[i].isCurrent
    ensures users[i].id in KeptIds(users, includeBots)
  {
    KeptIdsMembership(users, includeBots, users[i].id);
  }

  /** The current user is kept unless it is a bot and bots are excluded. */
  lemma {:induction false} CurrentUserKeptUnlessExcludedBot(users: seq<DiscordMember>, includeBots: bool, i: nat)
    requires i < |users| && users[i].isCurrent && (includeBots || !users[i].isBot)
    ensures users[i].id in KeptIds(users, includeBots)
  {
    KeptIdsMembership(users, includeBots, users[i].id);
  }

  /** The only users dropped are the current user when it is a bot and bots are excluded. */
  lemma {:induction false} DroppedOnlyCurrentExcludedBot(users: seq<DiscordMember>, includeBots: bool, x: uint64)
    requires x !in KeptIds(users, includeBots)
    ensures forall i :: 0 <= i < |users| && users[i].id == x ==>
              users[i].isCurrent && users[i].isBot && !includeBots
  {
    KeptIdsMembership(users, includeBots, x);
  }

  /** The code keeps everything the comment's rule keeps, and more. */
  lemma CommentRuleIsStricter(m: DiscordMember, includeBots: bool)
    ensures CommentRule(m, includeBots) ==> Kept(m, includeBots)
    ensures Kept(m, includeBots) && !CommentRule(m, includeBots)
            <==> (m.isCurrent && (includeBots || !m.isBot)) || (!m.isCurrent && m.isBot && !includeBots)
  {
  }

  /** A channel holding the current (human) user 42, humans 1 and 2 and bot 3, queried
      without bots: the comment's rule would give [1, 2]; the code gives all four ids. */
  lemma CodeDisagreesWithComment()
    ensures var users := [DiscordMember(42, true, false), DiscordMember(1, false, false),
                          DiscordMember(2, false, false), DiscordMember(3, false, true)];
            && KeptIds(users, false) == [42, 1, 2, 3]
            && !CommentRule(users[0], false) && !CommentRule(users[3], false)
  {
    var users := [DiscordMember(42, true, false), DiscordMember(1, false, false),
                  DiscordMember(2, false, false), DiscordMember(3, false, true)];
    assert users[..3][..2][..1] == [users[0]];
    assert KeptIds(users[..3][..2][..1], false) == [42];
    assert KeptIds(users[..3][..2], false) == [42, 1];
    assert KeptIds(users[..3], false) == [42, 1, 2];
  }
}
