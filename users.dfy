/**
 * public/api/users.php: a demo user list per backend branch, kept in one
 * JSON file per branch, with a status toggle. The files are a map from path
 * to what decoding the file's content gives; the Host header, the request
 * body and the clock are parameters.
 */
module Users {
  import opened Wrappers
  import opened Text
  import opened PhpCast
  import Hosts

  datatype User = User(id: int, name: string, email: string, role: string, status: string)

  /** The Host header `getCurrentBranch()` assumes when the request has none. */
  const DefaultHost := "develop.api.discovery.wang"

  /** `getCurrentBranch()`: the first label of the Host header, `develop` when there is none. */
  function CurrentBranch(host: Option<string>): (branch: string)
    ensures '.' !in branch
    ensures host.None? ==> branch == "develop"
  {
    match host
    case None => "develop"
    case Some(h) => Hosts.FirstLabel(h)
  }

  /** The branch is the first label of the Host header, or of the default host when there is none. */
  lemma CurrentBranchIsFirstLabel(host: Option<string>)
    ensures CurrentBranch(host) == Hosts.FirstLabel(host.GetOr(DefaultHost))
  {
    if host.None? {
      Hosts.FirstLabelBefore("develop", "api.discovery.wang");
      assert "develop" + "." + "api.discovery.wang" == DefaultHost;
    }
  }

  /** The file a branch's users live in. */
  function DataFile(branch: string): string
  {
    "/tmp/users_data_" + branch + ".json"
  }

  /** `$baseUsers`: the fixed lists of the three branches the demo ships with. */
  const BaseUsers: map<string, seq<User>> := map[
    "develop" :=
      [ User(1, "Alice Johnson (Dev)", "alice@dev.com", "Admin", "Active"),
        User(2, "Bob Smith (Dev)", "bob@dev.com", "User", "Active"),
        User(3, "Charlie Brown (Dev)", "charlie@dev.com", "Moderator", "Inactive"),
        User(4, "Diana Prince (Dev)", "diana@dev.com", "User", "Active"),
        User(5, "Edward Norton (Dev)", "edward@dev.com", "User", "Active") ],
    "feature-dev-001-say-hello-world" :=
      [ User(1, "Alex Chen (F001)", "alex@f001.com", "Admin", "Active"),
        User(2, "Barbara Lee (F001)", "barbara@f001.com", "User", "Active"),
        User(3, "Carlos Rodriguez (F001)", "carlos@f001.com", "User", "Active"),
        User(4, "Diana Martinez (F001)", "diana@f001.com", "Moderator", "Active"),
        User(5, "Eric Wang (F001)", "eric@f001.com", "Admin", "Active"),
        User(6, "Fiona O'Brien (F001)", "fiona@f001.com", "User", "Inactive"),
        User(7, "George Park (F001)", "george@f001.com", "User", "Active") ],
    "feature-dev-002-update-hello-world" :=
      [ User(1, "Anna Schmidt (F002)", "anna@f002.com", "Admin", "Active"),
        User(2, "Benjamin Kim (F002)", "benjamin@f002.com", "User", "Active"),
        User(3, "Catherine Liu (F002)", "catherine@f002.com", "Admin", "Active"),
        User(4, "David Anderson (F002)", "david@f002.com", "User", "Inactive"),
        User(5, "Emma Taylor (F002)", "emma@f002.com", "User", "Active"),
        User(6, "Frank Zhang (F002)", "frank@f002.com", "Moderator", "Active"),
        User(7, "Grace Wilson (F002)", "grace@f002.com", "User", "Active"),
        User(8, "Henry Davis (F002)", "henry@f002.com", "User", "Active"),
        User(9, "Iris Johnson (F002)", "iris@f002.com", "Admin", "Active") ]]

  /** The `i`-th (0-based) generic user of a branch: `User A (branch)`, `usera@branch.com`, and so on. */
  function GenericUser(i: nat, branch: string): User
    requires i < 6
  {
    var upper := "ABCDEF"[i];
    var lower := "abcdef"[i];
    var role := ["Admin", "User", "User", "Moderator", "User", "User"][i];
    var status := if i == 3 then "Inactive" else "Active";
    User(i + 1, "User " + [upper] + " (" + branch + ")", "user" + [lower] + "@" + branch + ".com", role, status)
  }

  /** `getDefaultUsers()`: the fixed list of a known branch, or six generic users naming the branch. */
  function DefaultUsers(branch: string): seq<User>
  {
    if branch in BaseUsers then BaseUsers[branch]
    else seq(6, i requires 0 <= i < 6 => GenericUser(i, branch))
  }

  /** The users are numbered 1, 2, ... in order. */
  predicate NumberedFromOne(users: seq<User>)
  {
    forall i :: 0 <= i < |users| ==> users[i].id == i + 1
  }

  /** Every status is one of the two the UI shows. */
  predicate KnownStatuses(users: seq<User>)
  {
    forall i :: 0 <= i < |users| ==> users[i].status == "Active" || users[i].status == "Inactive"
  }

  /** The fixed lists are numbered from 1 and use known statuses. */
  lemma BaseUsersShape(branch: string)
    ensures branch in BaseUsers ==> NumberedFromOne(BaseUsers[branch]) && KnownStatuses(BaseUsers[branch])
  {
  }

  /**
   * Every default list numbers its users 1, 2, ... in order with statuses
   * `Active` or `Inactive`; an unknown branch gets the six generic users.
   */
  lemma DefaultUsersShape(branch: string)
    ensures var users := DefaultUsers(branch);
      && NumberedFromOne(users) && KnownStatuses(users)
      && (branch != "develop" && branch != "feature-dev-001-say-hello-world" && branch != "feature-dev-002-update-hello-world" ==>
            |users| == 6 && forall i :: 0 <= i < 6 ==> users[i] == GenericUser(i, branch))
  {
    BaseUsersShape(branch);
  }

  /** The size of each branch's default list, and a generic user's address. */
  lemma DefaultSizes()
    ensures |DefaultUsers("develop")| == 5
    ensures |DefaultUsers("feature-dev-001-say-hello-world")| == 7
    ensures |DefaultUsers("feature-dev-002-update-hello-world")| == 9
    ensures DefaultUsers("feature-x")[0].email == "usera@feature-x.com"
  {
    assert "feature-x" != "develop" && "feature-x" != "feature-dev-001-say-hello-world" && "feature-x" != "feature-dev-002-update-hello-world";
  }

  /** What reading and decoding a data file gives: blank, not a JSON array, or a list of users. */
  datatype StoredFile = Blank | Malformed | Decoded(users: seq<User>)

  /** The users a load returns: the stored list when the file holds one (even an empty one), else the defaults. */
  function LoadedUsers(files: map<string, StoredFile>, branch: string): (users: seq<User>)
  {
    var path := DataFile(branch);
    if path in files && files[path].Decoded? then files[path].users else DefaultUsers(branch)
  }

  /** The files after a load: the defaults are saved when the file was missing, blank or malformed. */
  function FilesAfterLoad(files: map<string, StoredFile>, branch: string): map<string, StoredFile>
  {
    var path := DataFile(branch);
    if path in files && files[path].Decoded? then files else files[path := Decoded(DefaultUsers(branch))]
  }

  /**
   * After a load the branch's file holds exactly the list returned, no other
   * file changes, and a second load returns the same list and saves nothing.
   */
  lemma LoadIsStable(files: map<string, StoredFile>, branch: string)
    ensures var after := FilesAfterLoad(files, branch);
      && after[DataFile(branch)] == Decoded(LoadedUsers(files, branch))
      && (forall p :: p in files && p != DataFile(branch) ==> p in after && after[p] == files[p])
      && LoadedUsers(after, branch) == LoadedUsers(files, branch)
      && FilesAfterLoad(after, branch) == after
  {
  }

  /** A stored empty list is accepted as it is, not replaced by the defaults. */
  lemma EmptyListIsKept(files: map<string, StoredFile>, branch: string)
    requires DataFile(branch) in files && files[DataFile(branch)] == Decoded([])
    ensures LoadedUsers(files, branch) == [] && FilesAfterLoad(files, branch) == files
  {
  }

  /** The position of the first user with that id, if any. */
  function FindUser(users: seq<User>, id: int): (k: Option<nat>)
    ensures k.Some? ==> k.value < |users| && users[k.value].id == id && forall j :: 0 <= j < k.value ==> users[j].id != id
    ensures k.None? <==> forall j :: 0 <= j < |users| ==> users[j].id != id
  {
    if users == [] then None
    else if users[0].id == id then Some(0)
    else match FindUser(users[1..], id)
      case None => None
      case Some(k) => Some(k + 1)
  }

  /** The status a toggle gives: `Active` becomes `Inactive`, anything else becomes `Active`. */
  function Toggled(status: string): (r: string)
    ensures r == "Active" || r == "Inactive"
    ensures (r == "Inactive") <==> status == "Active"
  {
    if status == "Active" then "Inactive" else "Active"
  }

  /** The list with the first user of that id toggled, or `None` when no user has it. */
  function ToggleStatus(users: seq<User>, id: int): (r: Option<seq<User>>)
    ensures r.Some? <==> exists j :: 0 <= j < |users| && users[j].id == id
  {
    match FindUser(users, id)
    case None => None
    case Some(k) => Some(users[k := users[k].(status := Toggled(users[k].status))])
  }

  /**
   * A toggle changes one user only, the first with that id, and only its
   * status; the list keeps its length and order.
   */
  lemma ToggleChangesOnlyFirstMatch(users: seq<User>, id: int)
    requires ToggleStatus(users, id).Some?
    ensures var r := ToggleStatus(users, id).value;
      var k := FindUser(users, id).value;
      && |r| == |users|
      && r[k] == users[k].(status := Toggled(users[k].status))
      && (forall j :: 0 <= j < |users| && j != k ==> r[j] == users[j])
      && (forall j :: 0 <= j < k ==> users[j].id != id)
  {
  }

  /** Toggling the same id twice gives back a list whose matching user was `Active` or `Inactive`. */
  lemma ToggleTwice(users: seq<User>, id: int)
    requires ToggleStatus(users, id).Some? && Restorable(users, id)
    ensures ToggleStatus(ToggleStatus(users, id).value, id) == Some(users)
  {
    var k := FindUser(users, id).value;
    var once := ToggleStatus(users, id).value;
    FindUserAfterUpdate(users, id, k, once[k]);
    assert once[k := once[k].(status := Toggled(once[k].status))] == users;
  }

  /** Changing a user without changing its id does not move the first match. */
  lemma {:induction false} FindUserAfterUpdate(users: seq<User>, id: int, k: nat, u: User)
    requires k < |users| && u.id == users[k].id
    ensures FindUser(users[k := u], id) == FindUser(users, id)
  {
    if k > 0 {
      assert users[k := u][1..] == users[1..][k - 1 := u];
      FindUserAfterUpdate(users[1..], id, k - 1, u);
    }
  }

  /** The `foreach ($users as &$user)` loop: toggle the first user with that id and stop. */
  method ToggleFirst(users: seq<User>, id: int) returns (updated: seq<User>, found: bool)
    ensures found <==> ToggleStatus(users, id).Some?
    ensures updated == ToggleStatus(users, id).GetOr(users)
  {
    updated := users;
    found := false;
    var i := 0;
    while i < |updated|
      invariant 0 <= i <= |updated| && updated == users
      invariant forall j :: 0 <= j < i ==> users[j].id != id
    {
      if updated[i].id == id {
        updated := updated[i := updated[i].(status := Toggled(updated[i].status))];
        found := true;
        break;
      }
      i := i + 1;
    }
  }

  /** The decoded POST body: `action` and `user_id`, each `None` when unset or `null` (as for an undecodable body). */
  datatype PostBody = PostBody(action: Option<JsonScalar>, userId: Option<JsonScalar>)

  /** The JSON documents the API prints. */
  datatype Payload =
    | UserList(users: seq<User>, count: int, backendBranch: string, timestamp: string)
    | Updated(backendBranch: string, timestamp: string)
    | Failure(error: string)

  datatype Response = Response(status: int, payload: Payload)

  /** What a POST does: its response and the files it leaves. */
  function Post(files: map<string, StoredFile>, host: Option<string>, body: PostBody, timestamp: string)
    : (r: (Response, map<string, StoredFile>))
    ensures r.0.status == 400 || r.0.status == 404 || r.0.status == 200
    ensures r.0.status == 400 ==> r.1 == files
  {
    if body.action != Some(JString("toggle_status")) then (Response(400, Failure("Invalid action")), files)
    else if body.userId.None? then (Response(400, Failure("user_id is required")), files)
    else
      var branch := CurrentBranch(host);
      var users := LoadedUsers(files, branch);
      var loaded := FilesAfterLoad(files, branch);
      match ToggleStatus(users, IntCast(body.userId.value))
      case None => (Response(404, Failure("User not found")), loaded)
      case Some(toggled) => (Response(200, Updated(branch, timestamp)), loaded[DataFile(branch) := Decoded(toggled)])
  }

  /**
   * A wrong or missing action is refused before `user_id` is looked at, and
   * neither refusal touches a file.
   */
  lemma PostValidation(files: map<string, StoredFile>, host: Option<string>, body: PostBody, timestamp: string)
    ensures body.action != Some(JString("toggle_status")) ==> Post(files, host, body, timestamp) == (Response(400, Failure("Invalid action")), files)
    ensures body.action == Some(JString("toggle_status")) && body.userId.None? ==>
      Post(files, host, body, timestamp) == (Response(400, Failure("user_id is required")), files)
  {
  }

  /**
   * With a valid request, an unknown id gives 404 and saves no toggle (only
   * the defaults the load may have written); a known id gives 200, and the
   * next load finds the list with that one user toggled.
   */
  lemma PostToggle(files: map<string, StoredFile>, host: Option<string>, body: PostBody, timestamp: string)
    requires body.action == Some(JString("toggle_status")) && body.userId.Some?
    ensures var branch := CurrentBranch(host);
      var users := LoadedUsers(files, branch);
      var id := IntCast(body.userId.value);
      var r := Post(files, host, body, timestamp);
      && ((forall j :: 0 <= j < |users| ==> users[j].id != id) ==>
            r.0.status == 404 && r.1 == FilesAfterLoad(files, branch))
      && ((exists j :: 0 <= j < |users| && users[j].id == id) ==>
            r.0.status == 200 && ToggleStatus(users, id) == Some(LoadedUsers(r.1, branch)))
  {
  }

  /** The two toggles a user sees in the UI cancel out when nothing else changes the file. */
  lemma PostTwiceRestores(files: map<string, StoredFile>, host: Option<string>, body: PostBody, t1: string, t2: string)
    requires body.action == Some(JString("toggle_status")) && body.userId.Some?
    requires ToggleStatus(LoadedUsers(files, CurrentBranch(host)), IntCast(body.userId.value)).Some?
    requires Restorable(LoadedUsers(files, CurrentBranch(host)), IntCast(body.userId.value))
    ensures Post(Post(files, host, body, t1).1, host, body, t2).1[DataFile(CurrentBranch(host))]
         == Decoded(LoadedUsers(files, CurrentBranch(host)))
  {
    var branch := CurrentBranch(host);
    var users := LoadedUsers(files, branch);
    var id := IntCast(body.userId.value);
    PostSavesToggle(files, host, body, t1);
    ToggleTwice(users, id);
    var first := Post(files, host, body, t1).1;
    assert LoadedUsers(first, branch) == ToggleStatus(users, id).value;
    PostSavesToggle(first, host, body, t2);
  }

  /** The first user with that id has a status a second toggle gives back. */
  predicate Restorable(users: seq<User>, id: int)
    requires ToggleStatus(users, id).Some?
  {
    var k := FindUser(users, id).value;
    users[k].status == "Active" || users[k].status == "Inactive"
  }

  /** A successful POST saves the toggled list where the next load finds it. */
  lemma PostSavesToggle(files: map<string, StoredFile>, host: Option<string>, body: PostBody, timestamp: string)
    requires body.action == Some(JString("toggle_status")) && body.userId.Some?
    requires ToggleStatus(LoadedUsers(files, CurrentBranch(host)), IntCast(body.userId.value)).Some?
    ensures var toggled := ToggleStatus(LoadedUsers(files, CurrentBranch(host)), IntCast(body.userId.value)).value;
      var after := Post(files, host, body, timestamp).1;
      after[DataFile(CurrentBranch(host))] == Decoded(toggled) && LoadedUsers(after, CurrentBranch(host)) == toggled
  {
  }

  /** The GET response: the loaded list, its size as `count`, and the branch. */
  function Get(files: map<string, StoredFile>, host: Option<string>, timestamp: string): (r: (Response, map<string, StoredFile>))
    ensures r.0.status == 200 && r.0.payload.UserList? && r.0.payload.count == |r.0.payload.users|
  {
    var branch := CurrentBranch(host);
    var users := LoadedUsers(files, branch);
    (Response(200, UserList(users, |users|, branch, timestamp)), FilesAfterLoad(files, branch))
  }

  /** The script's main `switch`: GET lists, POST toggles, any other method gets 405 and touches nothing. */
  function Respond(requestMethod: string, files: map<string, StoredFile>, host: Option<string>, body: PostBody, timestamp: string)
    : (r: (Response, map<string, StoredFile>))
    ensures requestMethod != "GET" && requestMethod != "POST" ==> r == (Response(405, Failure("Method not allowed")), files)
    ensures requestMethod == "GET" ==> (r.0.payload.UserList? && r.0.payload.count == |r.0.payload.users|
      && r.0.payload.users == LoadedUsers(files, CurrentBranch(host)))
  {
    if requestMethod == "GET" then Get(files, host, timestamp)
    else if requestMethod == "POST" then Post(files, host, body, timestamp)
    else (Response(405, Failure("Method not allowed")), files)
  }

  /** The data files under /tmp, by path. */
  class UserStore {
    var files: map<string, StoredFile>

    constructor (files: map<string, StoredFile>)
      ensures this.files == files
    {
      this.files := files;
    }

    /** `loadUsers`: return the stored list, or save and return the defaults when there is none. */
    method LoadUsers(host: Option<string>) returns (users: seq<User>)
      modifies this
      ensures users == LoadedUsers(old(files), CurrentBranch(host))
      ensures files == FilesAfterLoad(old(files), CurrentBranch(host))
    {
      var branch := CurrentBranch(host);
      var branchDataFile := DataFile(branch);
      if branchDataFile !in files || !files[branchDataFile].Decoded? {
        users := DefaultUsers(branch);
        files := files[branchDataFile := Decoded(users)];
        return;
      }
      users := files[branchDataFile].users;
    }

    /** `handlePost`. */
    method HandlePost(host: Option<string>, body: PostBody, timestamp: string) returns (response: Response)
      modifies this
      ensures (response, files) == Post(old(files), host, body, timestamp)
    {
      if body.action != Some(JString("toggle_status")) {
        return Response(400, Failure("Invalid action"));
      }
      if body.userId.None? {
        return Response(400, Failure("user_id is required"));
      }
      var userId := IntCast(body.userId.value);
      var branch := CurrentBranch(host);
      var branchDataFile := DataFile(branch);
      var users := LoadUsers(host);
      var found;
      users, found := ToggleFirst(users, userId);
      if !found {
        return Response(404, Failure("User not found"));
      }
      files := files[branchDataFile := Decoded(users)];
      response := Response(200, Updated(branch, timestamp));
    }

    /** The script's main block. */
    method Dispatch(requestMethod: string, host: Option<string>, body: PostBody, timestamp: string) returns (response: Response)
      modifies this
      ensures (response, files) == Respond(requestMethod, old(files), host, body, timestamp)
    {
      match requestMethod {
        case "GET" =>
          var users := LoadUsers(host);
          response := Response(200, UserList(users, |users|, CurrentBranch(host), timestamp));
        case "POST" =>
          response := HandlePost(host, body, timestamp);
        case _ =>
          response := Response(405, Failure("Method not allowed"));
      }
    }
  }
}
