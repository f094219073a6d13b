/**
 * The account table (`users.csv`) behind login and registration
 * (aaqua.py:126-143): registration inserts a row only for a new username,
 * and login answers the role of the first row whose username and password
 * both match.
 */
module Users {
  import opened Options

  datatype UserRow = UserRow(username: string, password: string, role: string)

  /** `username in users["username"].values`. */
  predicate UsernameTaken(rows: seq<UserRow>, username: string)
  {
    exists i :: 0 <= i < |rows| && rows[i].username == username
  }

  predicate Matches(row: UserRow, username: string, password: string)
  {
    row.username == username && row.password == password
  }

  /** No two rows share a username. */
  predicate UniqueUsernames(rows: seq<UserRow>)
  {
    forall i, j :: 0 <= i < j < |rows| ==> rows[i].username != rows[j].username
  }

  /**
   * `authenticate`: the role of the first row matching both username and
   * password, or `None` when no row matches.
   */
  function Authenticate(rows: seq<UserRow>, username: string, password: string): (role: Option<string>)
    ensures role.None? <==> forall i :: 0 <= i < |rows| ==> !Matches(rows[i], username, password)
    ensures role.Some? ==>
              exists i :: 0 <= i < |rows| && Matches(rows[i], username, password) && rows[i].role == role.value
                          && forall j :: 0 <= j < i ==> !Matches(rows[j], username, password)
  {
    if |rows| == 0 then None
    else if Matches(rows[0], username, password) then Some(rows[0].role)
    else
      var rest := Authenticate(rows[1..], username, password);
      assert forall i :: 1 <= i < |rows| ==> rows[i] == rows[1..][i - 1];
      rest
  }

  /** An unknown username never logs in. */
  lemma UnknownUserRejected(rows: seq<UserRow>, username: string, password: string)
    requires !UsernameTaken(rows, username)
    ensures Authenticate(rows, username, password) == None
  {
  }

  /**
   * Appending a row never changes a successful login; a failed login
   * succeeds afterwards only when the new row matches.
   */
  lemma {:induction false} AuthenticateAppend(rows: seq<UserRow>, row: UserRow, username: string, password: string)
    ensures Authenticate(rows + [row], username, password)
            == if Authenticate(rows, username, password).Some? then Authenticate(rows, username, password)
               else if Matches(row, username, password) then Some(row.role)
               else None
  {
    if |rows| > 0 {
      assert (rows + [row])[1..] == rows[1..] + [row];
      AuthenticateAppend(rows[1..], row, username, password);
    }
  }

  /** A user registered under a new username can log in with the registered role. */
  lemma RegisterThenLogin(rows: seq<UserRow>, username: string, password: string, role: string)
    requires !UsernameTaken(rows, username)
    ensures Authenticate(rows + [UserRow(username, password, role)], username, password) == Some(role)
  {
    AuthenticateAppend(rows, UserRow(username, password, role), username, password);
  }

  /** Registering someone never changes what any other username logs in as. */
  lemma RegisterKeepsOtherLogins(rows: seq<UserRow>, username: string, password: string, role: string,
                                 other: string, otherPassword: string)
    requires other != username
    ensures Authenticate(rows + [UserRow(username, password, role)], other, otherPassword)
            == Authenticate(rows, other, otherPassword)
  {
    AuthenticateAppend(rows, UserRow(username, password, role), other, otherPassword);
  }

  /** On a table with unique usernames a login returns the role of the one matching row. */
  lemma AuthenticateUnique(rows: seq<UserRow>, i: nat)
    requires UniqueUsernames(rows) && i < |rows|
    ensures Authenticate(rows, rows[i].username, rows[i].password) == Some(rows[i].role)
  {
  }

  /** The account table; registration reads it, appends one row at most, and writes it back. */
  class UserTable {
    var rows: seq<UserRow>

    constructor (rows0: seq<UserRow>)
      ensures rows == rows0
    {
      rows := rows0;
    }

    /**
     * `save_user`: refuse a username that is already taken, leaving the table
     * as it was; otherwise append exactly one row at the end.
     */
    method SaveUser(username: string, password: string, role: string) returns (ok: bool)
      modifies this
      ensures ok <==> !UsernameTaken(old(rows), username)
      ensures !ok ==> rows == old(rows)
      ensures ok ==> rows == old(rows) + [UserRow(username, password, role)]
      ensures UniqueUsernames(old(rows)) ==> UniqueUsernames(rows)
    {
      if UsernameTaken(rows, username) {
        return false;
      }
      rows := rows + [UserRow(username, password, role)];
      ok := true;
    }
  }
}
