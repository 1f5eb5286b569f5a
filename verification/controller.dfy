/** The team controller: the team store and the user store as two maps that the handlers
    read and reassign, one method per handler. Each handler does its lookups in the order
    the controller does them and is proved to leave the stores as the matching function
    of module Teams says. */
module Controller {
  import opened Teams

  class TeamController {
    var teams: map<TeamId, Team>
    var users: map<UserId, User>

    /** The user store keeps e-mails unique; no handler changes an e-mail. */
    ghost predicate Valid()
      reads this
    {
      UniqueEmails(users)
    }

    ghost function State(): Store
      reads this
    {
      Store(teams, users)
    }

    constructor (teams0: map<TeamId, Team>, users0: map<UserId, User>)
      requires UniqueEmails(users0)
      ensures Valid()
      ensures teams == teams0 && users == users0
    {
      teams := teams0;
      users := users0;
    }

    /** List every team. */
    method Index() returns (all: map<TeamId, Team>)
      ensures all == teams
    {
      all := teams;
    }

    /** Look a team up by id. */
    method Show(teamId: TeamId) returns (r: Outcome<Team>)
      ensures teamId in teams ==> r == Success(teams[teamId])
      ensures teamId !in teams ==> r == NotFound(TeamNotFound)
    {
      if teamId in teams {
        r := Success(teams[teamId]);
      } else {
        r := NotFound(TeamNotFound);
      }
    }

    /** The user store's find-by-email. */
    method FindUserByEmail(email: Email) returns (found: Option<UserId>)
      requires Valid()
      ensures found == UserByEmail(users, email)
    {
      if exists uid :: uid in users && users[uid].email == email {
        var uid :| uid in users && users[uid].email == email;
        found := Some(uid);
      } else {
        found := None;
      }
    }

    /** Resolve the listed user ids one by one; stop at the first the user store lacks. */
    method FindMissingUser(ids: seq<UserId>) returns (missing: Option<UserId>)
      ensures missing == FirstMissing(ids, users)
    {
      for i := 0 to |ids|
        invariant forall j :: 0 <= j < i ==> ids[j] in users
      {
        if ids[i] !in users {
          missing := Some(ids[i]);
          return;
        }
      }
      missing := None;
    }

    method Create(body: CreateBody, newId: TeamId) returns (r: Outcome<Team>)
      requires Valid()
      requires newId !in teams
      modifies this
      ensures Valid()
      ensures State() == CreateStep(old(State()), body, newId).store
      ensures r == CreateStep(old(State()), body, newId).out
    {
      if NameTaken(teams, body.name) {
        return BadRequest(TeamExists);
      }
      var team := Draft(body);
      teams := teams[newId := team];
      r := Success(team);
    }

    method Update(teamId: TeamId, patch: TeamPatch, nameLookupFails: bool) returns (r: Outcome<Team>)
      requires Valid()
      modifies this
      ensures Valid()
      ensures State() == UpdateStep(old(State()), teamId, patch, nameLookupFails).store
      ensures r == UpdateStep(old(State()), teamId, patch, nameLookupFails).out
    {
      if patch.users.Some? {
        var missing := FindMissingUser(patch.users.value);
        if missing.Some? {
          return NotFound(UserIdNotFound(missing.value));
        }
      }
      var errorSent := false;
      if Truthy(patch.name) {
        if nameLookupFails {
          // the error is answered, but the handler goes on to the write
          errorSent := true;
        } else if !NameTaken(teams, patch.name.value) {
          return BadRequest(NameAlreadyExists(patch.name.value));
        }
      }
      if teamId !in teams {
        // the team found at the start was null: no write happens
        return ServerError;
      }
      var written := Merge(teams[teamId], patch);
      teams := teams[teamId := written];
      r := if errorSent then ServerError else Success(written);
    }

    method AddUser(teamId: TeamId, email: Email, saveFails: bool) returns (r: Outcome<Team>)
      requires Valid()
      modifies this
      ensures Valid()
      ensures State() == AddUserStep(old(State()), teamId, email, saveFails).store
      ensures r == AddUserStep(old(State()), teamId, email, saveFails).out
    {
      var found := FindUserByEmail(email);
      if found.None? {
        return NotFound(UserNotFound);
      }
      var uid := found.value;
      if teamId !in teams {
        return NotFound(TeamNotFound);
      }
      var user := users[uid];
      var team := teams[teamId];
      team := team.(users := team.users + [user.email]);
      teams := teams[teamId := team];
      if saveFails {
        return ServerError;
      }
      user := user.(teamId := Some(teamId));
      users := users[uid := user];
      r := Success(team);
    }

    method Delete(teamId: TeamId) returns (r: Outcome<Team>)
      requires Valid()
      modifies this
      ensures Valid()
      ensures State() == DeleteStep(old(State()), teamId).store
      ensures r == DeleteStep(old(State()), teamId).out
    {
      if teamId !in teams {
        return NotFound(TeamNotFound);
      }
      var team := teams[teamId];
      teams := teams - {teamId};
      r := Success(team);
    }
  }
}
