/**
 * The ownership store of app/core/models.py: users, twix groups, boards and
 * tasks, the user manager that provisions a personal group for every new user,
 * and the cascading deletes of the foreign keys.
 *
 * Primary keys are UUIDs in the source; here a counter hands out fresh ids.
 * Password hashing is opaque: the stored credential is `HashOf(password)`,
 * `Unusable` for no password, or `Blank` when no password was ever set.
 */
module Models {
  import opened Wrappers

  type UserId = nat
  type GroupId = nat
  type BoardId = nat
  type TaskId = nat

  /** Name of the group `create_user` provisions for every new user. */
  const PersonalGroupName: string := "Personal"

  /** Message of the `ValueError` raised for a missing email. */
  const NoEmailMessage: string := "User must have an email address"

  /**
   * The stored password column. `set_password(None)` stores an unusable
   * password, and `set_password(p)` the hash of `p`; the hash function itself
   * is not modelled. `Blank` is the column's empty default, left by a plain
   * insert that never calls `set_password`: an empty password field that no
   * password matches.
   */
  datatype Credential = Unusable | Blank | HashOf(password: string)

  /** What `set_password` stores for an optional password. */
  function SetPassword(password: Option<string>): (c: Credential)
    ensures c.Unusable? <==> password.None?
    ensures password.Some? ==> c.HashOf? && c.password == password.value
    ensures !c.Blank?
  {
    if password.None? then Unusable else HashOf(password.value)
  }

  /**
   * The keyword arguments `create_user` passes on to the model constructor
   * besides `email`; an absent one leaves the field's default.
   */
  datatype ExtraFields = ExtraFields(
    name: Option<string>,
    isActive: Option<bool>,
    isStaff: Option<bool>,
    isSuperuser: Option<bool>)

  /** No keyword arguments besides `email`, as `create_superuser` calls `create_user`. */
  const NoExtraFields: ExtraFields := ExtraFields(None, None, None, None)

  /**
   * A user record. `authGroups` are the names of the Django auth groups the
   * user belongs to (the permissions mixin), a relation separate from twix
   * groups, which are recorded on the `Group` side.
   */
  datatype User = User(
    email: string,
    name: string,
    password: Credential,
    isActive: bool,
    isStaff: bool,
    isSuperuser: bool,
    authGroups: set<string>)

  /** A twix group with its two many-to-many relations to users. */
  datatype Group = Group(name: string, admins: set<UserId>, users: set<UserId>)

  /** A board belongs to exactly one group. */
  datatype Board = Board(name: string, isPersonal: bool, group: GroupId)

  /** A task belongs to exactly one board. */
  datatype Task = Task(name: string, isDone: bool, board: BoardId)

  /** `ValueError` from the manager; `IntegrityError` from a violated database constraint. */
  datatype StoreError = ValueError(message: string) | IntegrityError

  /** A freshly built user record with the model's field defaults. */
  function NewUser(email: string, name: string, password: Credential): (u: User)
    ensures u.email == email && u.name == name && u.password == password
    ensures u.isActive && !u.isStaff && !u.isSuperuser && u.authGroups == {}
  {
    User(email, name, password, true, false, false, {})
  }

  /**
   * `self.model(email=email, **extra_fields)` followed by `set_password`:
   * every given keyword overrides its field's default (the empty name,
   * active, not staff, not superuser), and the email and credential are the
   * given ones.
   */
  function BuildUser(email: string, password: Option<string>, extra: ExtraFields): (u: User)
    ensures u.email == email && u.password == SetPassword(password) && u.authGroups == {}
    ensures extra.name.Some? ==> u.name == extra.name.value
    ensures extra.name.None? ==> u.name == ""
    ensures extra.isActive.Some? ==> u.isActive == extra.isActive.value
    ensures extra.isActive.None? ==> u.isActive
    ensures extra.isStaff.Some? ==> u.isStaff == extra.isStaff.value
    ensures extra.isStaff.None? ==> !u.isStaff
    ensures extra.isSuperuser.Some? ==> u.isSuperuser == extra.isSuperuser.value
    ensures extra.isSuperuser.None? ==> !u.isSuperuser
  {
    var d := NewUser(email, "", SetPassword(password));
    d.(name := if extra.name.Some? then extra.name.value else d.name,
       isActive := if extra.isActive.Some? then extra.isActive.value else d.isActive,
       isStaff := if extra.isStaff.Some? then extra.isStaff.value else d.isStaff,
       isSuperuser := if extra.isSuperuser.Some? then extra.isSuperuser.value else d.isSuperuser)
  }

  /** With no keyword arguments the built user is exactly a new user with the defaults. */
  lemma NoExtraFieldsKeepDefaults(email: string, password: Option<string>)
    ensures BuildUser(email, password, NoExtraFields) == NewUser(email, "", SetPassword(password))
  {
  }

  /** Some stored user already has this email. */
  predicate EmailTaken(users: map<UserId, User>, email: string)
  {
    exists u :: u in users && users[u].email == email
  }

  /** The `unique=True` constraint on the email column. */
  ghost predicate EmailsUnique(users: map<UserId, User>)
  {
    forall a, b :: a in users && b in users && users[a].email == users[b].email ==> a == b
  }

  /**
   * The database constraints: unique emails, and no row referencing a
   * missing row (many-to-many rows, board.group, task.board).
   */
  ghost predicate Consistent(
    users: map<UserId, User>,
    groups: map<GroupId, Group>,
    boards: map<BoardId, Board>,
    tasks: map<TaskId, Task>)
  {
    && EmailsUnique(users)
    && (forall g :: g in groups ==> groups[g].users <= users.Keys && groups[g].admins <= users.Keys)
    && (forall b :: b in boards ==> boards[b].group in groups)
    && (forall t :: t in tasks ==> tasks[t].board in boards)
  }

  /**
   * `user.twix_groups`: the reverse side of `Group.users`, computed from the
   * group side because the two are one relation.
   */
  function TwixGroups(groups: map<GroupId, Group>, u: UserId): (r: set<GroupId>)
    ensures r <= groups.Keys
    ensures forall g :: g in groups ==> (g in r <==> u in groups[g].users)
  {
    set g | g in groups && u in groups[g].users
  }

  /** The group after adding `u` to its `users` relation. */
  function WithMember(grp: Group, u: UserId): (r: Group)
    ensures r.users == grp.users + {u}
    ensures r.admins == grp.admins && r.name == grp.name
  {
    grp.(users := grp.users + {u})
  }

  /** The group after adding `u` to its `admins` relation. */
  function WithAdmin(grp: Group, u: UserId): (r: Group)
    ensures r.admins == grp.admins + {u}
    ensures r.users == grp.users && r.name == grp.name
  {
    grp.(admins := grp.admins + {u})
  }

  /**
   * Adding `u` to `g.users` is the same as adding `g` to `u.twix_groups`:
   * seen from the user's side exactly `g` is added, and no other user's
   * groups change.
   */
  lemma MemberAddedOnBothSides(groups: map<GroupId, Group>, g: GroupId, u: UserId, v: UserId)
    requires g in groups
    ensures TwixGroups(groups[g := WithMember(groups[g], u)], u) == TwixGroups(groups, u) + {g}
    ensures v != u ==> TwixGroups(groups[g := WithMember(groups[g], u)], v) == TwixGroups(groups, v)
  {
  }

  /** Adding a member who is already there changes nothing. */
  lemma WithMemberIdempotent(grp: Group, u: UserId)
    ensures WithMember(WithMember(grp, u), u) == WithMember(grp, u)
  {
  }

  /** The boards whose group still exists: what `on_delete=CASCADE` on `Board.group` keeps. */
  function SurvivingBoards(boards: map<BoardId, Board>, groups: map<GroupId, Group>): (r: map<BoardId, Board>)
    ensures r.Keys <= boards.Keys
    ensures forall b :: b in r ==> r[b] == boards[b] && r[b].group in groups
    ensures forall b :: b in boards && boards[b].group in groups ==> b in r
  {
    map b | b in boards && boards[b].group in groups :: boards[b]
  }

  /** The tasks whose board still exists: what `on_delete=CASCADE` on `Task.board` keeps. */
  function SurvivingTasks(tasks: map<TaskId, Task>, boards: map<BoardId, Board>): (r: map<TaskId, Task>)
    ensures r.Keys <= tasks.Keys
    ensures forall t :: t in r ==> r[t] == tasks[t] && r[t].board in boards
    ensures forall t :: t in tasks && tasks[t].board in boards ==> t in r
  {
    map t | t in tasks && tasks[t].board in boards :: tasks[t]
  }

  /** Every group with `u` taken out of both many-to-many relations (the rows deleted with `u`). */
  function WithoutUser(groups: map<GroupId, Group>, u: UserId): (r: map<GroupId, Group>)
    ensures r.Keys == groups.Keys
    ensures forall g :: g in r ==>
      && r[g].name == groups[g].name
      && r[g].users == groups[g].users - {u}
      && r[g].admins == groups[g].admins - {u}
  {
    map g | g in groups :: groups[g].(users := groups[g].users - {u}, admins := groups[g].admins - {u})
  }

  /**
   * Deleting a group and cascading leaves a consistent store in which no
   * board of that group, and no task of such a board, survives.
   */
  lemma GroupCascadeConsistent(
    users: map<UserId, User>,
    groups: map<GroupId, Group>,
    boards: map<BoardId, Board>,
    tasks: map<TaskId, Task>,
    g: GroupId)
    requires Consistent(users, groups, boards, tasks)
    ensures var groups' := groups - {g};
            var boards' := SurvivingBoards(boards, groups');
            var tasks' := SurvivingTasks(tasks, boards');
            && Consistent(users, groups', boards', tasks')
            && (forall b :: b in boards ==> (b in boards' <==> boards[b].group != g))
            && (forall t :: t in tasks ==> (t in tasks' <==> boards[tasks[t].board].group != g))
  {
  }

  /**
   * The store: one table per model. Every method keeps the database
   * constraints (`Valid`), and says exactly what the tables hold afterwards.
   */
  class Store {
    var users: map<UserId, User>
    var groups: map<GroupId, Group>
    var boards: map<BoardId, Board>
    var tasks: map<TaskId, Task>
    /** The next fresh primary key (stands for `uuid4()`). */
    var nextId: nat

    ghost predicate Valid()
      reads this
    {
      && Consistent(users, groups, boards, tasks)
      && (forall id :: id in users ==> id < nextId)
      && (forall id :: id in groups ==> id < nextId)
      && (forall id :: id in boards ==> id < nextId)
      && (forall id :: id in tasks ==> id < nextId)
    }

    constructor ()
      ensures Valid()
      ensures users == map[] && groups == map[] && boards == map[] && tasks == map[]
    {
      users, groups, boards, tasks := map[], map[], map[], map[];
      nextId := 0;
    }

    /** A primary key no table uses yet. */
    method FreshId() returns (id: nat)
      requires Valid()
      modifies this`nextId
      ensures Valid()
      ensures id == old(nextId) && nextId == id + 1
      ensures id !in users && id !in groups && id !in boards && id !in tasks
    {
      id := nextId;
      nextId := nextId + 1;
    }

    /**
     * `group.users.add(user)`, and equally `user.twix_groups.add(group)`:
     * both insert the same row of the one relation.
     */
    method AddMember(g: GroupId, u: UserId)
      requires Valid() && g in groups && u in users
      modifies this`groups
      ensures Valid()
      ensures groups == old(groups)[g := WithMember(old(groups)[g], u)]
      ensures TwixGroups(groups, u) == old(TwixGroups(groups, u)) + {g}
    {
      MemberAddedOnBothSides(groups, g, u, u);
      groups := groups[g := WithMember(groups[g], u)];
    }

    /** `group.admins.add(user)`. */
    method AddAdmin(g: GroupId, u: UserId)
      requires Valid() && g in groups && u in users
      modifies this`groups
      ensures Valid()
      ensures groups == old(groups)[g := WithAdmin(old(groups)[g], u)]
    {
      groups := groups[g := WithAdmin(groups[g], u)];
    }

    /**
     * Lines 22-27 of `create_user`: a new 'Personal' group, the user added to
     * its `users` and `admins`, then `user.twix_groups.add`, which inserts
     * the membership row a second time and so changes nothing.
     */
    method ProvisionPersonalGroup(u: UserId) returns (g: GroupId)
      requires Valid() && u in users
      modifies this
      ensures Valid()
      ensures g !in old(groups) && groups == old(groups)[g := Group(PersonalGroupName, {u}, {u})]
      ensures users == old(users) && boards == old(boards) && tasks == old(tasks)
    {
      g := FreshId();
      groups := groups[g := Group(PersonalGroupName, {}, {})];
      ghost var created := groups;
      AddMember(g, u);
      AddAdmin(g, u);
      ghost var personal := Group(PersonalGroupName, {u}, {u});
      assert groups[g] == personal;
      AddMember(g, u);
      assert WithMember(personal, u) == personal;
      assert groups == created[g := personal];
    }

    /**
     * `UserManager.create_user`: a missing or empty email raises ValueError;
     * an email already in use fails the unique constraint when the user is
     * saved. Otherwise the user is stored as `BuildUser` makes it, and
     * exactly one new group named 'Personal' is created with the user as its
     * only member and only admin. Nothing that existed before changes.
     */
    method CreateUser(email: Option<string>, password: Option<string>, extra: ExtraFields) returns (r: Result<UserId, StoreError>)
      requires Valid()
      modifies this
      ensures Valid()
      ensures (email.None? || email.value == "") ==> r == Err(ValueError(NoEmailMessage))
      ensures email.Some? && email.value != "" && old(EmailTaken(users, email.value)) ==> r == Err(IntegrityError)
      ensures r.Ok? <==> email.Some? && email.value != "" && !old(EmailTaken(users, email.value))
      ensures r.Err? ==> users == old(users) && groups == old(groups)
      ensures r.Ok? ==>
        && r.value !in old(users)
        && users == old(users)[r.value := BuildUser(email.value, password, extra)]
        && exists g: GroupId :: g !in old(groups) && groups == old(groups)[g := Group(PersonalGroupName, {r.value}, {r.value})]
      ensures boards == old(boards) && tasks == old(tasks)
    {
      if email.None? || email.value == "" {
        return Err(ValueError(NoEmailMessage));
      }
      if EmailTaken(users, email.value) {
        return Err(IntegrityError);
      }
      var u := FreshId();
      users := users[u := BuildUser(email.value, password, extra)];
      var g := ProvisionPersonalGroup(u);
      r := Ok(u);
    }

    /**
     * `UserManager.create_superuser`: `create_user` without a name, then the
     * staff and superuser flags are set; the personal group is kept.
     */
    method CreateSuperuser(email: Option<string>, password: Option<string>) returns (r: Result<UserId, StoreError>)
      requires Valid()
      modifies this
      ensures Valid()
      ensures (email.None? || email.value == "") ==> r == Err(ValueError(NoEmailMessage))
      ensures email.Some? && email.value != "" && old(EmailTaken(users, email.value)) ==> r == Err(IntegrityError)
      ensures r.Ok? <==> email.Some? && email.value != "" && !old(EmailTaken(users, email.value))
      ensures r.Err? ==> users == old(users) && groups == old(groups)
      ensures r.Ok? ==>
        && r.value !in old(users)
        && users == old(users)[r.value := NewUser(email.value, "", SetPassword(password)).(isStaff := true, isSuperuser := true)]
        && users[r.value].isActive && users[r.value].isStaff && users[r.value].isSuperuser
        && exists g: GroupId :: g !in old(groups) && groups == old(groups)[g := Group(PersonalGroupName, {r.value}, {r.value})]
      ensures boards == old(boards) && tasks == old(tasks)
    {
      r := CreateUser(email, password, NoExtraFields);
      NoExtraFieldsKeepDefaults(if email.Some? then email.value else "", password);
      if r.Ok? {
        var u := r.value;
        users := users[u := users[u].(isStaff := true, isSuperuser := true)];
      }
    }

    /**
     * The manager's generic `create`, used when a user is created through a
     * model serializer: a plain insert that leaves the password column at
     * its empty default and provisions no personal group. An email in use fails the unique constraint.
     */
    method InsertUser(email: string, name: string) returns (r: Result<UserId, StoreError>)
      requires Valid()
      modifies this
      ensures Valid()
      ensures r.Ok? <==> !old(EmailTaken(users, email))
      ensures r.Err? ==> r == Err(IntegrityError) && users == old(users)
      ensures r.Ok? ==> r.value !in old(users) && users == old(users)[r.value := NewUser(email, name, Blank)]
      ensures groups == old(groups) && boards == old(boards) && tasks == old(tasks)
    {
      if EmailTaken(users, email) {
        return Err(IntegrityError);
      }
      var u := FreshId();
      users := users[u := NewUser(email, name, Blank)];
      r := Ok(u);
    }

    /** `Group.objects.create(name=...)`: a new group with no members and no admins. */
    method CreateGroup(name: string) returns (g: GroupId)
      requires Valid()
      modifies this
      ensures Valid()
      ensures g !in old(groups) && groups == old(groups)[g := Group(name, {}, {})]
      ensures users == old(users) && boards == old(boards) && tasks == old(tasks)
    {
      g := FreshId();
      groups := groups[g := Group(name, {}, {})];
    }

    /** A new board; a group that does not exist fails the foreign-key constraint. */
    method CreateBoard(name: string, isPersonal: bool, group: GroupId) returns (r: Result<BoardId, StoreError>)
      requires Valid()
      modifies this
      ensures Valid()
      ensures r.Ok? <==> group in old(groups)
      ensures r.Err? ==> r == Err(IntegrityError) && boards == old(boards)
      ensures r.Ok? ==> r.value !in old(boards) && boards == old(boards)[r.value := Board(name, isPersonal, group)]
      ensures users == old(users) && groups == old(groups) && tasks == old(tasks)
    {
      if group !in groups {
        return Err(IntegrityError);
      }
      var b := FreshId();
      boards := boards[b := Board(name, isPersonal, group)];
      r := Ok(b);
    }

    /** A new task; a board that does not exist fails the foreign-key constraint. */
    method CreateTask(name: string, isDone: bool, board: BoardId) returns (r: Result<TaskId, StoreError>)
      requires Valid()
      modifies this
      ensures Valid()
      ensures r.Ok? <==> board in old(boards)
      ensures r.Err? ==> r == Err(IntegrityError) && tasks == old(tasks)
      ensures r.Ok? ==> r.value !in old(tasks) && tasks == old(tasks)[r.value := Task(name, isDone, board)]
      ensures users == old(users) && groups == old(groups) && boards == old(boards)
    {
      if board !in boards {
        return Err(IntegrityError);
      }
      var t := FreshId();
      tasks := tasks[t := Task(name, isDone, board)];
      r := Ok(t);
    }

    /** `save()` of an existing user whose new email is not another user's. */
    method SaveUser(u: UserId, v: User)
      requires Valid() && u in users
      requires forall w :: w in users && w != u ==> users[w].email != v.email
      modifies this
      ensures Valid()
      ensures users == old(users)[u := v]
      ensures groups == old(groups) && boards == old(boards) && tasks == old(tasks)
    {
      users := users[u := v];
    }

    /** `save()` of an existing group whose members and admins are stored users. */
    method SaveGroup(g: GroupId, v: Group)
      requires Valid() && g in groups
      requires v.users <= users.Keys && v.admins <= users.Keys
      modifies this
      ensures Valid()
      ensures groups == old(groups)[g := v]
      ensures users == old(users) && boards == old(boards) && tasks == old(tasks)
    {
      groups := groups[g := v];
    }

    /** `save()` of an existing board whose group exists. */
    method SaveBoard(b: BoardId, v: Board)
      requires Valid() && b in boards && v.group in groups
      modifies this
      ensures Valid()
      ensures boards == old(boards)[b := v]
      ensures users == old(users) && groups == old(groups) && tasks == old(tasks)
    {
      boards := boards[b := v];
    }

    /** `save()` of an existing task whose board exists. */
    method SaveTask(t: TaskId, v: Task)
      requires Valid() && t in tasks && v.board in boards
      modifies this
      ensures Valid()
      ensures tasks == old(tasks)[t := v]
      ensures users == old(users) && groups == old(groups) && boards == old(boards)
    {
      tasks := tasks[t := v];
    }

    /** Deleting a task: nothing references a task. */
    method DeleteTask(t: TaskId)
      requires Valid()
      modifies this
      ensures Valid()
      ensures tasks == old(tasks) - {t}
      ensures users == old(users) && groups == old(groups) && boards == old(boards)
    {
      tasks := tasks - {t};
    }

    /** Deleting a board cascades to exactly the tasks on it. */
    method DeleteBoard(b: BoardId)
      requires Valid()
      modifies this
      ensures Valid()
      ensures boards == old(boards) - {b}
      ensures tasks == SurvivingTasks(old(tasks), boards)
      ensures forall t :: t in old(tasks) ==> (t in tasks <==> old(tasks)[t].board != b)
      ensures users == old(users) && groups == old(groups)
    {
      boards := boards - {b};
      tasks := SurvivingTasks(tasks, boards);
    }

    /**
     * Deleting a group cascades to exactly its boards, and from them to
     * exactly their tasks.
     */
    method DeleteGroup(g: GroupId)
      requires Valid()
      modifies this
      ensures Valid()
      ensures groups == old(groups) - {g}
      ensures boards == SurvivingBoards(old(boards), groups)
      ensures tasks == SurvivingTasks(old(tasks), boards)
      ensures forall b :: b in old(boards) ==> (b in boards <==> old(boards)[b].group != g)
      ensures forall t :: t in old(tasks) ==> (t in tasks <==> old(boards)[old(tasks)[t].board].group != g)
      ensures users == old(users)
    {
      GroupCascadeConsistent(users, groups, boards, tasks, g);
      groups := groups - {g};
      boards := SurvivingBoards(boards, groups);
      tasks := SurvivingTasks(tasks, boards);
    }

    /**
     * Deleting a user removes its rows from both many-to-many relations;
     * groups, boards and tasks themselves stay.
     */
    method DeleteUser(u: UserId)
      requires Valid()
      modifies this
      ensures Valid()
      ensures users == old(users) - {u}
      ensures groups == WithoutUser(old(groups), u)
      ensures boards == old(boards) && tasks == old(tasks)
    {
      users := users - {u};
      groups := WithoutUser(groups, u);
    }
  }
}
