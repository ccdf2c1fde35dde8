/**
 * The board, task and group view sets of app/twix/views.py. Each
 * `get_queryset` is a scope: the records the requesting principal may list.
 * The detail view sets filter by the same scope before retrieving, updating or
 * destroying, so a record outside the scope is "not found". Updates are
 * partial. Creation goes straight to the store and consults no scope.
 */
module TwixViews {
  import opened Wrappers
  import opened Models

  /**
   * The errors of the board, task and group views: the `Http404` raised by
   * `get_object` for a key outside the scope, the serializer's rejection of
   * a blank `name` (no `name` column is declared `blank=True`), and a
   * violated database constraint.
   */
  datatype ViewError = NotFound | ValidationError | StoreFailure(error: StoreError)

  /**
   * The group scope: the groups whose `users` contain the principal. The
   * source spells this lookup `users_in`; the membership in `Group.users` it
   * evidently means is what is modelled. `admins` is not consulted.
   */
  function GroupScope(groups: map<GroupId, Group>, p: UserId): (r: set<GroupId>)
    ensures forall g :: g in r <==> g in groups && p in groups[g].users
  {
    TwixGroups(groups, p)
  }

  /**
   * The board scope: the boards whose group has the principal as a member,
   * i.e. whose group is in the principal's group scope.
   */
  function BoardScope(groups: map<GroupId, Group>, boards: map<BoardId, Board>, p: UserId): (r: set<BoardId>)
    ensures forall b :: b in r <==> b in boards && boards[b].group in GroupScope(groups, p)
  {
    set b | b in boards && boards[b].group in groups && p in groups[boards[b].group].users
  }

  /** The task scope: the tasks whose board is in the principal's board scope. */
  function TaskScope(groups: map<GroupId, Group>, boards: map<BoardId, Board>, tasks: map<TaskId, Task>, p: UserId): (r: set<TaskId>)
    ensures forall t :: t in r <==> t in tasks && tasks[t].board in BoardScope(groups, boards, p)
  {
    set t | t in tasks && tasks[t].board in boards
              && boards[tasks[t].board].group in groups
              && p in groups[boards[tasks[t].board].group].users
  }

  /** Only the `users` relation decides the scopes: changing `admins` or names changes none of them. */
  lemma ScopesIgnoreAdmins(
    groups: map<GroupId, Group>,
    groups': map<GroupId, Group>,
    boards: map<BoardId, Board>,
    tasks: map<TaskId, Task>,
    p: UserId)
    requires groups.Keys == groups'.Keys
    requires forall g :: g in groups ==> groups[g].users == groups'[g].users
    ensures GroupScope(groups, p) == GroupScope(groups', p)
    ensures BoardScope(groups, boards, p) == BoardScope(groups', boards, p)
    ensures TaskScope(groups, boards, tasks, p) == TaskScope(groups', boards, tasks, p)
  {
  }

  /**
   * A principal who is not a member of a group sees none of its boards and
   * none of their tasks, whoever administers it.
   */
  lemma NonMemberSeesNothingOfGroup(
    groups: map<GroupId, Group>,
    boards: map<BoardId, Board>,
    tasks: map<TaskId, Task>,
    p: UserId,
    g: GroupId)
    requires g in groups && p !in groups[g].users
    ensures g !in GroupScope(groups, p)
    ensures forall b :: b in boards && boards[b].group == g ==> b !in BoardScope(groups, boards, p)
    ensures forall t :: t in tasks && tasks[t].board in boards && boards[tasks[t].board].group == g ==>
      t !in TaskScope(groups, boards, tasks, p)
  {
  }

  /** Adding the principal to a group's users adds exactly that group to its group scope. */
  lemma JoiningWidensScope(groups: map<GroupId, Group>, boards: map<BoardId, Board>, g: GroupId, p: UserId)
    requires g in groups
    ensures GroupScope(groups[g := WithMember(groups[g], p)], p) == GroupScope(groups, p) + {g}
    ensures BoardScope(groups[g := WithMember(groups[g], p)], boards, p) ==
      BoardScope(groups, boards, p) + (set b | b in boards && boards[b].group == g)
  {
  }

  /**
   * Right after `create_user` stores user `u` and its personal group `g`,
   * `u` sees exactly that group and no board or task: nothing else lists it
   * and no board belongs to the new group yet.
   */
  lemma NewUserScope(
    users: map<UserId, User>,
    groups: map<GroupId, Group>,
    boards: map<BoardId, Board>,
    tasks: map<TaskId, Task>,
    u: UserId,
    g: GroupId)
    requires Consistent(users, groups, boards, tasks)
    requires u !in users && g !in groups
    ensures GroupScope(groups[g := Group(PersonalGroupName, {u}, {u})], u) == {g}
    ensures BoardScope(groups[g := Group(PersonalGroupName, {u}, {u})], boards, u) == {}
    ensures TaskScope(groups[g := Group(PersonalGroupName, {u}, {u})], boards, tasks, u) == {}
  {
  }

  /** Once a user is deleted, its memberships are gone, so it would see nothing. */
  lemma RemovedUserSeesNothing(groups: map<GroupId, Group>, boards: map<BoardId, Board>, tasks: map<TaskId, Task>, u: UserId)
    ensures GroupScope(WithoutUser(groups, u), u) == {}
    ensures BoardScope(WithoutUser(groups, u), boards, u) == {}
    ensures TaskScope(WithoutUser(groups, u), boards, tasks, u) == {}
  {
  }

  /** `get_object` on a filtered queryset: the record if its key is in scope, else `Http404`. */
  function GetObject<T>(records: map<nat, T>, scope: set<nat>, id: nat): (r: Result<T, ViewError>)
    requires scope <= records.Keys
    ensures r.Ok? <==> id in scope
    ensures r.Err? ==> r == Err(NotFound)
    ensures r.Ok? ==> r.value == records[id]
  {
    if id in scope then Ok(records[id]) else Err(NotFound)
  }

  /** A partial update of a board: each absent field keeps its value; the group is never changed. */
  function PatchBoard(b: Board, name: Option<string>, isPersonal: Option<bool>): (r: Board)
    ensures r.group == b.group
    ensures r.name == (if name.Some? then name.value else b.name)
    ensures r.isPersonal == (if isPersonal.Some? then isPersonal.value else b.isPersonal)
  {
    Board(if name.Some? then name.value else b.name,
          if isPersonal.Some? then isPersonal.value else b.isPersonal,
          b.group)
  }

  /** A partial update of a task: each absent field keeps its value; the board is never changed. */
  function PatchTask(t: Task, name: Option<string>, isDone: Option<bool>): (r: Task)
    ensures r.board == t.board
    ensures r.name == (if name.Some? then name.value else t.name)
    ensures r.isDone == (if isDone.Some? then isDone.value else t.isDone)
  {
    Task(if name.Some? then name.value else t.name,
         if isDone.Some? then isDone.value else t.isDone,
         t.board)
  }

  /** A partial update of a group: the name if given; the memberships are never changed. */
  function PatchGroup(g: Group, name: Option<string>): (r: Group)
    ensures r.users == g.users && r.admins == g.admins
    ensures r.name == (if name.Some? then name.value else g.name)
  {
    g.(name := if name.Some? then name.value else g.name)
  }

  /** An empty partial update changes nothing, and applying one twice is applying it once. */
  lemma PatchesAreIdempotent(b: Board, t: Task, g: Group, name: Option<string>, flag: Option<bool>)
    ensures PatchBoard(b, None, None) == b && PatchTask(t, None, None) == t && PatchGroup(g, None) == g
    ensures PatchBoard(PatchBoard(b, name, flag), name, flag) == PatchBoard(b, name, flag)
    ensures PatchTask(PatchTask(t, name, flag), name, flag) == PatchTask(t, name, flag)
    ensures PatchGroup(PatchGroup(g, name), name) == PatchGroup(g, name)
  {
  }

  // ----- BoardViewSet and BoardDetailViewSet -----

  /** `view_board`: exactly the board scope, read without changing the store. */
  method ViewBoard(store: Store, p: UserId) returns (r: set<BoardId>)
    ensures r == BoardScope(store.groups, store.boards, p)
    ensures forall b :: b in r ==> b in store.boards && p in store.groups[store.boards[b].group].users
  {
    r := BoardScope(store.groups, store.boards, p);
  }

  /**
   * `create_board`: a plain create; the principal's scope is not consulted.
   * A blank name is rejected before anything is saved; a missing group
   * fails the foreign-key constraint.
   */
  method CreateBoard(store: Store, name: string, isPersonal: bool, group: GroupId) returns (r: Result<BoardId, ViewError>)
    requires store.Valid()
    modifies store
    ensures store.Valid()
    ensures r.Ok? <==> name != "" && group in old(store.groups)
    ensures name == "" ==> r == Err(ValidationError)
    ensures name != "" && group !in old(store.groups) ==> r == Err(StoreFailure(IntegrityError))
    ensures r.Ok? ==> r.value !in old(store.boards) && store.boards == old(store.boards)[r.value := Board(name, isPersonal, group)]
    ensures r.Err? ==> store.boards == old(store.boards)
    ensures store.users == old(store.users) && store.groups == old(store.groups) && store.tasks == old(store.tasks)
  {
    if name == "" {
      return Err(ValidationError);
    }
    var created := store.CreateBoard(name, isPersonal, group);
    r := if created.Ok? then Ok(created.value) else Err(StoreFailure(created.error));
  }

  /** `view_board_by_id`: the board, if it is in the principal's scope. */
  method ViewBoardById(store: Store, p: UserId, id: BoardId) returns (r: Result<Board, ViewError>)
    ensures r.Ok? <==> id in BoardScope(store.groups, store.boards, p)
    ensures r.Err? ==> r == Err(NotFound)
    ensures r.Ok? ==> id in store.boards && r.value == store.boards[id]
  {
    r := GetObject(store.boards, BoardScope(store.groups, store.boards, p), id);
  }

  /** `update_board_by_id`: a partial update of an in-scope board; otherwise nothing changes. */
  method UpdateBoardById(store: Store, p: UserId, id: BoardId, name: Option<string>, isPersonal: Option<bool>)
    returns (r: Result<Board, ViewError>)
    requires store.Valid()
    modifies store
    ensures store.Valid()
    ensures r.Ok? <==> id in old(BoardScope(store.groups, store.boards, p)) && name != Some("")
    ensures id !in old(BoardScope(store.groups, store.boards, p)) ==> r == Err(NotFound)
    ensures id in old(BoardScope(store.groups, store.boards, p)) && name == Some("") ==> r == Err(ValidationError)
    ensures r.Err? ==> store.boards == old(store.boards)
    ensures r.Ok? ==> r.value == PatchBoard(old(store.boards[id]), name, isPersonal) && store.boards == old(store.boards)[id := r.value]
    ensures store.users == old(store.users) && store.groups == old(store.groups) && store.tasks == old(store.tasks)
  {
    var found := GetObject(store.boards, BoardScope(store.groups, store.boards, p), id);
    if found.Err? {
      return Err(found.error);
    }
    if name == Some("") {
      return Err(ValidationError);
    }
    var updated := PatchBoard(found.value, name, isPersonal);
    store.SaveBoard(id, updated);
    r := Ok(updated);
  }

  /** `destroy_board_by_id`: deletes an in-scope board and, by cascade, its tasks. */
  method DestroyBoardById(store: Store, p: UserId, id: BoardId) returns (r: Result<(), ViewError>)
    requires store.Valid()
    modifies store
    ensures store.Valid()
    ensures r.Ok? <==> id in old(BoardScope(store.groups, store.boards, p))
    ensures r.Err? ==> r == Err(NotFound)
    ensures r.Err? ==> store.boards == old(store.boards) && store.tasks == old(store.tasks)
    ensures r.Ok? ==> store.boards == old(store.boards) - {id}
    ensures r.Ok? ==> forall t :: t in old(store.tasks) ==> (t in store.tasks <==> old(store.tasks)[t].board != id)
    ensures r.Ok? ==> store.tasks == SurvivingTasks(old(store.tasks), store.boards)
    ensures store.users == old(store.users) && store.groups == old(store.groups)
  {
    var found := GetObject(store.boards, BoardScope(store.groups, store.boards, p), id);
    if found.Err? {
      return Err(found.error);
    }
    store.DeleteBoard(id);
    r := Ok(());
  }

  // ----- TaskViewSet and TaskDetailViewSet -----

  /** `view_task`: exactly the task scope, read without changing the store. */
  method ViewTask(store: Store, p: UserId) returns (r: set<TaskId>)
    ensures r == TaskScope(store.groups, store.boards, store.tasks, p)
    ensures forall t :: t in r ==> t in store.tasks && store.tasks[t].board in BoardScope(store.groups, store.boards, p)
  {
    r := TaskScope(store.groups, store.boards, store.tasks, p);
  }

  /**
   * `create_task`: a plain create; the principal's scope is not consulted.
   * A blank name is rejected before anything is saved; a missing board
   * fails the foreign-key constraint.
   */
  method CreateTask(store: Store, name: string, isDone: bool, board: BoardId) returns (r: Result<TaskId, ViewError>)
    requires store.Valid()
    modifies store
    ensures store.Valid()
    ensures r.Ok? <==> name != "" && board in old(store.boards)
    ensures name == "" ==> r == Err(ValidationError)
    ensures name != "" && board !in old(store.boards) ==> r == Err(StoreFailure(IntegrityError))
    ensures r.Ok? ==> r.value !in old(store.tasks) && store.tasks == old(store.tasks)[r.value := Task(name, isDone, board)]
    ensures r.Err? ==> store.tasks == old(store.tasks)
    ensures store.users == old(store.users) && store.groups == old(store.groups) && store.boards == old(store.boards)
  {
    if name == "" {
      return Err(ValidationError);
    }
    var created := store.CreateTask(name, isDone, board);
    r := if created.Ok? then Ok(created.value) else Err(StoreFailure(created.error));
  }

  /** `view_task_by_id`: the task, if it is in the principal's scope. */
  method ViewTaskById(store: Store, p: UserId, id: TaskId) returns (r: Result<Task, ViewError>)
    ensures r.Ok? <==> id in TaskScope(store.groups, store.boards, store.tasks, p)
    ensures r.Err? ==> r == Err(NotFound)
    ensures r.Ok? ==> id in store.tasks && r.value == store.tasks[id]
  {
    r := GetObject(store.tasks, TaskScope(store.groups, store.boards, store.tasks, p), id);
  }

  /** `update_task_by_id`: a partial update of an in-scope task; otherwise nothing changes. */
  method UpdateTaskById(store: Store, p: UserId, id: TaskId, name: Option<string>, isDone: Option<bool>)
    returns (r: Result<Task, ViewError>)
    requires store.Valid()
    modifies store
    ensures store.Valid()
    ensures r.Ok? <==> id in old(TaskScope(store.groups, store.boards, store.tasks, p)) && name != Some("")
    ensures id !in old(TaskScope(store.groups, store.boards, store.tasks, p)) ==> r == Err(NotFound)
    ensures id in old(TaskScope(store.groups, store.boards, store.tasks, p)) && name == Some("") ==> r == Err(ValidationError)
    ensures r.Err? ==> store.tasks == old(store.tasks)
    ensures r.Ok? ==> r.value == PatchTask(old(store.tasks[id]), name, isDone) && store.tasks == old(store.tasks)[id := r.value]
    ensures store.users == old(store.users) && store.groups == old(store.groups) && store.boards == old(store.boards)
  {
    var found := GetObject(store.tasks, TaskScope(store.groups, store.boards, store.tasks, p), id);
    if found.Err? {
      return Err(found.error);
    }
    if name == Some("") {
      return Err(ValidationError);
    }
    var updated := PatchTask(found.value, name, isDone);
    store.SaveTask(id, updated);
    r := Ok(updated);
  }

  /** `destroy_task_by_id`: deletes an in-scope task. */
  method DestroyTaskById(store: Store, p: UserId, id: TaskId) returns (r: Result<(), ViewError>)
    requires store.Valid()
    modifies store
    ensures store.Valid()
    ensures r.Ok? <==> id in old(TaskScope(store.groups, store.boards, store.tasks, p))
    ensures r.Err? ==> r == Err(NotFound)
    ensures r.Err? ==> store.tasks == old(store.tasks)
    ensures r.Ok? ==> store.tasks == old(store.tasks) - {id}
    ensures store.users == old(store.users) && store.groups == old(store.groups) && store.boards == old(store.boards)
  {
    var found := GetObject(store.tasks, TaskScope(store.groups, store.boards, store.tasks, p), id);
    if found.Err? {
      return Err(found.error);
    }
    store.DeleteTask(id);
    r := Ok(());
  }

  // ----- GroupViewSet and GroupDetailViewSet -----

  /** `view_group`: exactly the group scope, read without changing the store. */
  method ViewGroup(store: Store, p: UserId) returns (r: set<GroupId>)
    ensures r == GroupScope(store.groups, p)
    ensures forall g :: g in r ==> g in store.groups && p in store.groups[g].users
  {
    r := GroupScope(store.groups, p);
  }

  /**
   * `create_group`: a plain create of a group with no members; no scope is
   * consulted. A blank name is rejected and nothing is stored.
   */
  method CreateGroup(store: Store, name: string) returns (r: Result<GroupId, ViewError>)
    requires store.Valid()
    modifies store
    ensures store.Valid()
    ensures r.Ok? <==> name != ""
    ensures r.Err? ==> r == Err(ValidationError) && store.groups == old(store.groups)
    ensures r.Ok? ==> r.value !in old(store.groups) && store.groups == old(store.groups)[r.value := Group(name, {}, {})]
    ensures store.users == old(store.users) && store.boards == old(store.boards) && store.tasks == old(store.tasks)
  {
    if name == "" {
      return Err(ValidationError);
    }
    var g := store.CreateGroup(name);
    r := Ok(g);
  }

  /** The detail view of a group (the source's `view_grade_by_id`): the group, if in scope. */
  method ViewGroupById(store: Store, p: UserId, id: GroupId) returns (r: Result<Group, ViewError>)
    ensures r.Ok? <==> id in GroupScope(store.groups, p)
    ensures r.Err? ==> r == Err(NotFound)
    ensures r.Ok? ==> id in store.groups && r.value == store.groups[id] && p in r.value.users
  {
    r := GetObject(store.groups, GroupScope(store.groups, p), id);
  }

  /** `update_grade_by_id`: a partial update of an in-scope group; otherwise nothing changes. */
  method UpdateGroupById(store: Store, p: UserId, id: GroupId, name: Option<string>) returns (r: Result<Group, ViewError>)
    requires store.Valid()
    modifies store
    ensures store.Valid()
    ensures r.Ok? <==> id in old(GroupScope(store.groups, p)) && name != Some("")
    ensures id !in old(GroupScope(store.groups, p)) ==> r == Err(NotFound)
    ensures id in old(GroupScope(store.groups, p)) && name == Some("") ==> r == Err(ValidationError)
    ensures r.Err? ==> store.groups == old(store.groups)
    ensures r.Ok? ==> r.value == PatchGroup(old(store.groups[id]), name) && store.groups == old(store.groups)[id := r.value]
    ensures store.users == old(store.users) && store.boards == old(store.boards) && store.tasks == old(store.tasks)
  {
    var found := GetObject(store.groups, GroupScope(store.groups, p), id);
    if found.Err? {
      return Err(found.error);
    }
    if name == Some("") {
      return Err(ValidationError);
    }
    var updated := PatchGroup(found.value, name);
    store.SaveGroup(id, updated);
    r := Ok(updated);
  }

  /** `destroy_grade_by_id`: deletes an in-scope group and, by cascade, its boards and their tasks. */
  method DestroyGroupById(store: Store, p: UserId, id: GroupId) returns (r: Result<(), ViewError>)
    requires store.Valid()
    modifies store
    ensures store.Valid()
    ensures r.Ok? <==> id in old(GroupScope(store.groups, p))
    ensures r.Err? ==> r == Err(NotFound)
    ensures r.Err? ==> store.groups == old(store.groups) && store.boards == old(store.boards) && store.tasks == old(store.tasks)
    ensures r.Ok? ==> store.groups == old(store.groups) - {id}
    ensures r.Ok? ==> forall b :: b in old(store.boards) ==> (b in store.boards <==> old(store.boards)[b].group != id)
    ensures r.Ok? ==> forall t :: t in old(store.tasks) ==>
      (t in store.tasks <==> old(store.boards)[old(store.tasks)[t].board].group != id)
    ensures r.Ok? ==> store.boards == SurvivingBoards(old(store.boards), store.groups)
    ensures r.Ok? ==> store.tasks == SurvivingTasks(old(store.tasks), store.boards)
    ensures store.users == old(store.users)
  {
    var found := GetObject(store.groups, GroupScope(store.groups, p), id);
    if found.Err? {
      return Err(found.error);
    }
    store.DeleteGroup(id);
    r := Ok(());
  }
}
