/** Properties of the team controller that relate several handler calls, or a handler to
    the membership invariant it is meant to keep. */
module Properties {
  import opened Teams

  /** Adding the same user to the same team twice lists the e-mail twice: there is no
      duplicate check. */
  lemma AddUserTwiceRepeatsEmail(s: Store, teamId: TeamId, email: Email)
    requires UserByEmail(s.users, email).Some?
    requires teamId in s.teams
    ensures var s1 := AddUserStep(s, teamId, email, false).store;
            var s2 := AddUserStep(s1, teamId, email, false).store;
            teamId in s2.teams && s2.teams[teamId].users == s.teams[teamId].users + [email, email]
  {
  }

  /** A successful add-user keeps membership consistent when the user was unaffiliated or
      already pointed at this team. */
  lemma AddUserKeepsMembershipConsistent(s: Store, teamId: TeamId, email: Email)
    requires UniqueEmails(s.users) && MembershipConsistent(s)
    requires UserByEmail(s.users, email).Some? && teamId in s.teams
    requires s.users[UserByEmail(s.users, email).value].teamId in {None, Some(teamId)}
    ensures MembershipConsistent(AddUserStep(s, teamId, email, false).store)
  {
  }

  /** If the user save fails after the team write, the team lists the user but the user
      does not point back: the two-write failure window. */
  lemma SaveFailureBreaksMembership(s: Store, teamId: TeamId, email: Email)
    requires UserByEmail(s.users, email).Some? && teamId in s.teams
    requires s.users[UserByEmail(s.users, email).value].teamId != Some(teamId)
    ensures AddUserStep(s, teamId, email, true).out == ServerError
    ensures !MembershipConsistent(AddUserStep(s, teamId, email, true).store)
  {
  }

  /** Moving a user to a second team leaves the e-mail in the first team's list. */
  lemma MovingUserLeavesStaleEntry(s: Store, teamId: TeamId, email: Email, previous: TeamId)
    requires UserByEmail(s.users, email).Some? && teamId in s.teams
    requires previous in s.teams && previous != teamId && email in s.teams[previous].users
    ensures AddUserStep(s, teamId, email, false).out.Success?
    ensures !MembershipConsistent(AddUserStep(s, teamId, email, false).store)
  {
  }

  /** Deleting a team leaves its members pointing at it. */
  lemma DeleteLeavesDanglingReference(s: Store, teamId: TeamId, uid: UserId)
    requires teamId in s.teams && uid in s.users && s.users[uid].teamId == Some(teamId)
    ensures var s' := DeleteStep(s, teamId).store;
            teamId !in s'.teams && s'.users[uid].teamId == Some(teamId) && !NoDanglingTeamRefs(s')
  {
  }

  /** Create never produces a second team with a name in use. */
  lemma CreateKeepsNamesUnique(s: Store, body: CreateBody, newId: TeamId)
    requires newId !in s.teams && UniqueNames(s.teams)
    ensures UniqueNames(CreateStep(s, body, newId).store.teams)
  {
  }

  /** The inverted rename check lets update give a team the name another team holds. */
  lemma RenameToTakenNameDuplicates(s: Store, teamId: TeamId, other: TeamId)
    requires teamId in s.teams && other in s.teams && teamId != other
    requires s.teams[other].name != ""
    ensures var r := UpdateStep(s, teamId, TeamPatch(Some(s.teams[other].name), None, None), false);
            r.out.Success? && !UniqueNames(r.store.teams)
  {
    var patch := TeamPatch(Some(s.teams[other].name), None, None);
    assert NameTaken(s.teams, s.teams[other].name);
    var r := UpdateStep(s, teamId, patch, false);
    assert r.store.teams[teamId].name == r.store.teams[other].name;
  }

  /** The inverted rename check refuses a name no team holds. */
  lemma RenameToFreshNameRejected(s: Store, teamId: TeamId, name: string)
    requires teamId in s.teams && name != ""
    requires forall id :: id in s.teams ==> s.teams[id].name != name
    ensures UpdateStep(s, teamId, TeamPatch(Some(name), None, None), false)
            == Step(s, BadRequest(NameAlreadyExists(name)))
  {
  }

  /** An update with an empty body answers the stored team and changes nothing. */
  lemma UpdateEmptyPatchKeepsTeam(s: Store, teamId: TeamId)
    requires teamId in s.teams
    ensures UpdateStep(s, teamId, TeamPatch(None, None, None), false) == Step(s, Success(s.teams[teamId]))
  {
  }

  /** Create "Alpha", add an unaffiliated user to it, then create "Alpha" again. */
  lemma AlphaScenario()
    ensures
      var s0 := Store(map[], map["u1" := User("a@x.com", None)]);
      var c1 := CreateStep(s0, CreateBody("Alpha", None, None), "t1");
      var a := AddUserStep(c1.store, "t1", "a@x.com", false);
      var c2 := CreateStep(a.store, CreateBody("Alpha", None, None), "t2");
      && c1.out == Success(Team("Alpha", [], 0))
      && a.out == Success(Team("Alpha", ["a@x.com"], 0))
      && a.store.users["u1"].teamId == Some("t1")
      && c2 == Step(a.store, BadRequest(TeamExists))
  {
    var s0 := Store(map[], map["u1" := User("a@x.com", None)]);
    var c1 := CreateStep(s0, CreateBody("Alpha", None, None), "t1");
    assert "u1" in s0.users && s0.users["u1"].email == "a@x.com";
    assert UserByEmail(c1.store.users, "a@x.com") == Some("u1");
    var a := AddUserStep(c1.store, "t1", "a@x.com", false);
    assert [] + ["a@x.com"] == ["a@x.com"];
    assert NameTaken(a.store.teams, "Alpha");
  }
}
