/** The admin user-management page: the case-insensitive search over the
    loaded users, the Ban / Unban choice on each row, and the ban and unban
    handlers with their guards. The HTTP calls are parameters: whether the
    request succeeded and the user list fetched afterwards. */
module UsersPage {
  import opened Common
  import opened Db

  /** A user as the admin list returns it. */
  datatype UserRow = UserRow(id: string, name: Option<string>, email: string, role: Role, isBanned: bool)

  /** The search predicate: the lower-cased query occurs in the lower-cased
      name (when there is one) or in the lower-cased e-mail. */
  predicate Matches(query: string, u: UserRow) {
    || (u.name.Some? && Contains(ToLower(u.name.value), ToLower(query)))
    || Contains(ToLower(u.email), ToLower(query))
  }

  function FilterUsers(users: seq<UserRow>, query: string): seq<UserRow> {
    Filter(users, u => Matches(query, u))
  }

  /** The filtered list keeps the users that match, in their order, and no
      others. */
  lemma FilteredIsSublist(users: seq<UserRow>, query: string)
    ensures IsSubsequence(FilterUsers(users, query), users)
    ensures forall i :: 0 <= i < |FilterUsers(users, query)| ==> Matches(query, FilterUsers(users, query)[i])
    ensures forall i :: 0 <= i < |users| && Matches(query, users[i]) ==> users[i] in FilterUsers(users, query)
  {
    FilterIsSubsequence(users, u => Matches(query, u));
  }

  /** An empty search box lists every user. */
  lemma EmptyQueryKeepsAll(users: seq<UserRow>)
    ensures FilterUsers(users, "") == users
  {
    forall i | 0 <= i < |users|
      ensures Matches("", users[i])
    {
      EverythingContainsEmpty(ToLower(users[i].email));
    }
    FilterAll(users, u => Matches("", u));
  }

  lemma {:induction false} ToLowerIdempotent(s: string)
    ensures ToLower(ToLower(s)) == ToLower(s)
  {
    var t := ToLower(s);
    assert forall i :: 0 <= i < |s| ==> ToLower(t)[i] == LowerChar(LowerChar(s[i])) == t[i];
  }

  /** The search ignores the case of the query, and a user without a name
      is found only through the e-mail. */
  lemma MatchIgnoresCase(query: string, u: UserRow)
    ensures Matches(query, u) <==> Matches(ToLower(query), u)
    ensures u.name.None? ==> (Matches(query, u) <==> Contains(ToLower(u.email), ToLower(query)))
  {
    ToLowerIdempotent(query);
  }

  datatype RowAction = BanAction | UnbanAction

  /** The row offers Unban exactly for a banned user, Ban otherwise. */
  function RowActionOf(u: UserRow): (a: RowAction)
    ensures a == UnbanAction <==> u.isBanned
    ensures a == BanAction <==> !u.isBanned
  {
    if u.isBanned then UnbanAction else BanAction
  }

  class UserManagement {
    var users: seq<UserRow>
    var filteredUsers: seq<UserRow>
    var searchQuery: string
    var selectedUser: Option<UserRow>
    var showBanDialog: bool
    var showUnbanDialog: bool
    var banReason: string
    var isSubmitting: bool

    /** The filter effect has run: the shown list is the search over the
        loaded users. */
    predicate Valid()
      reads this
    {
      filteredUsers == FilterUsers(users, searchQuery)
    }

    constructor ()
      ensures Valid()
      ensures users == [] && filteredUsers == [] && searchQuery == ""
      ensures selectedUser.None? && !showBanDialog && !showUnbanDialog
      ensures banReason == "" && !isSubmitting
    {
      users, filteredUsers, searchQuery := [], [], "";
      selectedUser, showBanDialog, showUnbanDialog := None, false, false;
      banReason, isSubmitting := "", false;
    }

    /** `fetchUsers` with its result: the list is replaced and the filter
        effect re-runs with the current query. */
    method LoadUsers(fetched: seq<UserRow>)
      modifies this
      ensures Valid()
      ensures users == fetched && filteredUsers == FilterUsers(fetched, searchQuery)
      ensures searchQuery == old(searchQuery) && selectedUser == old(selectedUser)
      ensures showBanDialog == old(showBanDialog) && showUnbanDialog == old(showUnbanDialog)
      ensures banReason == old(banReason) && isSubmitting == old(isSubmitting)
    {
      users := fetched;
      filteredUsers := FilterUsers(users, searchQuery);
    }

    /** Typing in the search box. */
    method SetSearchQuery(q: string)
      modifies this
      ensures Valid()
      ensures searchQuery == q && users == old(users)
      ensures selectedUser == old(selectedUser) && banReason == old(banReason)
      ensures showBanDialog == old(showBanDialog) && showUnbanDialog == old(showUnbanDialog)
      ensures isSubmitting == old(isSubmitting)
    {
      searchQuery := q;
      filteredUsers := FilterUsers(users, q);
    }

    /** The row button: selects the user and opens the dialog for the action
        the row offers. */
    method OpenRowAction(u: UserRow)
      modifies this
      ensures selectedUser == Some(u)
      ensures showUnbanDialog == (u.isBanned || old(showUnbanDialog))
      ensures showBanDialog == (!u.isBanned || old(showBanDialog))
      ensures users == old(users) && filteredUsers == old(filteredUsers) && searchQuery == old(searchQuery)
      ensures banReason == old(banReason) && isSubmitting == old(isSubmitting)
    {
      selectedUser := Some(u);
      match RowActionOf(u)
      case UnbanAction => showUnbanDialog := true;
      case BanAction => showBanDialog := true;
    }

    method SetBanReason(reason: string)
      modifies this
      ensures banReason == reason
      ensures users == old(users) && filteredUsers == old(filteredUsers) && searchQuery == old(searchQuery)
      ensures selectedUser == old(selectedUser) && isSubmitting == old(isSubmitting)
      ensures showBanDialog == old(showBanDialog) && showUnbanDialog == old(showUnbanDialog)
    {
      banReason := reason;
    }

    /** The "Ban User" button is disabled while a request runs or while the
        reason is blank. */
    predicate BanButtonDisabled()
      reads this
    {
      isSubmitting || Trim(banReason) == ""
    }

    /** `handleBanUser`: nothing happens without a selected user or with a
        blank reason. Otherwise the request is sent; when it succeeds
        (`ok`), the list is reloaded with `refetched`, the dialog closes and
        the selection and reason are cleared. */
    method HandleBanUser(ok: bool, refetched: seq<UserRow>) returns (requestSent: bool)
      requires Valid()
      modifies this
      ensures Valid()
      ensures requestSent <==> old(selectedUser).Some? && Trim(old(banReason)) != ""
      ensures !requestSent ==> unchanged(this)
      ensures requestSent ==> !isSubmitting
      ensures requestSent && ok ==>
                && users == refetched && !showBanDialog && selectedUser.None? && banReason == ""
                && searchQuery == old(searchQuery) && showUnbanDialog == old(showUnbanDialog)
      ensures requestSent && !ok ==>
                && users == old(users) && filteredUsers == old(filteredUsers) && searchQuery == old(searchQuery)
                && selectedUser == old(selectedUser) && banReason == old(banReason)
                && showBanDialog == old(showBanDialog) && showUnbanDialog == old(showUnbanDialog)
    {
      if selectedUser.None? || Trim(banReason) == "" {
        return false;
      }
      requestSent := true;
      isSubmitting := true;
      if ok {
        LoadUsers(refetched);
        showBanDialog := false;
        selectedUser := None;
        banReason := "";
      }
      isSubmitting := false;
    }

    /** `handleUnbanUser`: needs only a selected user. */
    method HandleUnbanUser(ok: bool, refetched: seq<UserRow>) returns (requestSent: bool)
      requires Valid()
      modifies this
      ensures Valid()
      ensures requestSent <==> old(selectedUser).Some?
      ensures !requestSent ==> unchanged(this)
      ensures requestSent ==> !isSubmitting
      ensures requestSent && ok ==>
                && users == refetched && !showUnbanDialog && selectedUser.None?
                && searchQuery == old(searchQuery) && banReason == old(banReason)
                && showBanDialog == old(showBanDialog)
      ensures requestSent && !ok ==>
                && users == old(users) && filteredUsers == old(filteredUsers) && searchQuery == old(searchQuery)
                && selectedUser == old(selectedUser) && banReason == old(banReason)
                && showBanDialog == old(showBanDialog) && showUnbanDialog == old(showUnbanDialog)
    {
      if selectedUser.None? {
        return false;
      }
      requestSent := true;
      isSubmitting := true;
      if ok {
        LoadUsers(refetched);
        showUnbanDialog := false;
        selectedUser := None;
      }
      isSubmitting := false;
    }
  }
}
