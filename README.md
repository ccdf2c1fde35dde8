# Twix server: ownership store and access rules

A Dafny model of the core of the Twix task-board backend. That core has five parts:
- an ownership store of users, twix groups, boards and tasks;
- the user manager that provisions a personal group for every new user;
- the per-principal scopes that decide which boards, tasks and groups a principal may list, retrieve, update or delete;
- the self-only user endpoints;
- the `DynamicModelSerializer` field projection and the explicit permission checks.

Modules, one per source file:

- `Wrappers` (`wrappers.dfy`): `Option` and `Result`.
- `Models` (`models.dfy`): the records and the `Store` class (app/core/models.py). The store's methods keep the database constraints, stated by `Valid`:
  - emails are unique;
  - no membership row, board or task refers to a missing row.

  Each method states exactly what every table holds afterwards. Deletes cascade Group → Board → Task. Deleting a user removes its membership rows.
- `Permissions` (`permissions.dfy`): `check_permission`, `check_object_permission` and `IsAppToken` (app/core/permissions.py).
- `Serializers` (`serializers.dfy`): the serializer's ordered field names and the in-place popping of its `__init__` (app/core/serializers.py). The method is proved against the function `Project`. Lemmas about `Project` prove four properties:
  - the `fields` branch keeps exactly the declared fields it names;
  - the `exclude` branch succeeds exactly for distinct existing names and removes exactly them;
  - excluding an unknown name raises `KeyError`;
  - every result keeps the declared order.
- `TwixViews` (`twix_views.dfy`): the scope of each board, task and group view set, and the detail operations filtered by the same scope (app/twix/views.py).
- `UserViews` (`user_views.dfy`): the user view set (app/user/views.py).

Modelling decisions:
- Primary keys are UUIDs in the source. Here the store hands out fresh natural numbers from a counter.
- Password hashing is opaque: `set_password(p)` stores `HashOf(p)`, and `set_password(None)` stores `Unusable`. A plain insert that never calls `set_password` leaves `Blank`, the column's empty default: an empty password field that no password matches.
- `create_user`'s keyword arguments besides `email` are the record `ExtraFields`. Each one is optional and overrides its field's default: `name`, `is_active`, `is_staff` and `is_superuser`.
- The authenticated principal is given as a user id. Token authentication is not modelled.
- A user's Django auth groups, which `IsAppToken` consults, are the set `authGroups` on the user record. This relation is separate from twix groups, which record their members in `Group.users`.
- `user.twix_groups` and `Group.users` are one relation. `TwixGroups` computes the user's side from the group side.
- The board filter at app/twix/views.py:27 and :61 walks `twix_groups__users`. The task filter at :99 and :133 walks `board__twix_groups__users`. But a board has a single `group` foreign key (app/core/models.py:69). The scopes therefore follow `board.group` and ask whether the principal is in that group's `users`.
- The group filter is spelled `users_in` (app/twix/views.py:171, :205). The model uses the membership in `Group.users` that this evidently means. `admins` is consulted nowhere.
- The `email` filter of `list_user` is a regular-expression match. The regex engine is the parameter `matches(pattern, email)`.
- Creating a user through the user endpoint goes through the model serializer's default create, which is the manager's plain `create`. It is not `UserManager.create_user`. So that path stores a user with an empty password field and provisions no personal group (`Store.InsertUser`). `UserManager.create_user` provisions a personal group (app/core/models.py:22-27), but this endpoint never calls it, so a user registered here has no personal group.
- The serializer's checks on an incoming user are modelled only as far as the user endpoints need them. The email must be non-empty and not already used by another user. The name must be non-empty, because the `name` column is not declared `blank=True` (app/core/models.py:48). On create, an absent email or name is given as the empty string.
- The create endpoints of boards, tasks and groups take the new record's fields directly and consult no scope, as `CreateModelMixin` does not. A created group has no members.
- The `name` columns of boards, tasks and groups (app/core/models.py:67, :82, :97) are not declared `blank=True` either. So their create and update endpoints reject an empty name with a ValidationError before anything is saved. An update checks this after the scope, as `get_object` runs before the serializer.

## Model

| member | source | states |
|---|---|---|
| `Models.NewUser` | app/core/models.py:46-50 | a new user is active, not staff and not superuser, and has the given email, name and credential |
| `Models.SetPassword` | app/core/models.py:18 | `set_password(None)` stores an unusable password; otherwise the stored credential is the given password's hash; never the blank default |
| `Models.BuildUser` | app/core/models.py:17-18 | `self.model(email=email, **extra_fields)` then `set_password`: each given keyword overrides its field, each absent one keeps the default (empty name, active, not staff, not superuser); no auth groups |
| `Models.NoExtraFieldsKeepDefaults` | app/core/models.py:35 | `create_user` called with no keyword arguments builds exactly a default new user with an empty name |
| `Models.TwixGroups` | app/core/models.py:99-103 | `user.twix_groups` is exactly the set of groups whose `users` contain the user |
| `Models.MemberAddedOnBothSides` | app/core/models.py:23-27 | adding `u` to `g.users` adds exactly `g` to `u`'s twix groups and changes no other user's groups |
| `Models.WithMemberIdempotent` | app/core/models.py:27 | adding an existing member again is a no-op |
| `Models.SurvivingBoards` | app/core/models.py:69 | exactly the boards whose group still exists survive, unchanged |
| `Models.SurvivingTasks` | app/core/models.py:84 | exactly the tasks whose board still exists survive, unchanged |
| `Models.WithoutUser` | app/core/models.py:98-99 | deleting a user removes it from every group's `users` and `admins` and keeps every group |
| `Models.GroupCascadeConsistent` | app/core/models.py:69-84 | after a group delete cascades, the store is consistent, a board survives iff its group is not the deleted one, and a task survives iff its board's group is not the deleted one |
| `Models.Store.AddMember` | app/core/models.py:23-27 | `group.users.add(user)` and `user.twix_groups.add(group)` insert the same row; the user's groups gain exactly that group |
| `Models.Store.AddAdmin` | app/core/models.py:24 | `group.admins.add(user)` adds the user to that group's admins only |
| `Models.Store.ProvisionPersonalGroup` | app/core/models.py:22-27 | one fresh group named 'Personal' whose members and admins are exactly the user; nothing else changes |
| `Models.Store.CreateUser` | app/core/models.py:12-31 | missing or empty email gives ValueError and a used email gives IntegrityError, both storing nothing; otherwise one fresh user built from the email, the optional password and the keyword overrides, and exactly one fresh 'Personal' group with the user as its sole member and admin; no existing record changes; emails stay unique |
| `Models.Store.CreateSuperuser` | app/core/models.py:33-41 | same outcomes as `create_user` with no keyword arguments and the password passed through (None gives an unusable password); on success the user has an empty name, the staff and superuser flags, is active, and keeps its personal group |
| `Models.Store.InsertUser` | app/core/models.py:44-52 | the manager's plain create: a used email gives IntegrityError; otherwise a fresh user with defaults and an empty password field that no password matches; no group is created |
| `Models.Store.CreateGroup` | app/core/models.py:94-99 | a fresh group with the given name and no members or admins |
| `Models.Store.CreateBoard` | app/core/models.py:64-69 | a fresh board iff its group exists, else IntegrityError and nothing stored |
| `Models.Store.CreateTask` | app/core/models.py:79-84 | a fresh task iff its board exists, else IntegrityError and nothing stored |
| `Models.Store.SaveUser` | app/core/models.py:44-50 | replaces one user record, keeping emails unique; nothing else changes |
| `Models.Store.SaveGroup` | app/core/models.py:94-99 | replaces one group record; nothing else changes |
| `Models.Store.SaveBoard` | app/core/models.py:64-69 | replaces one board record, whose group exists; nothing else changes |
| `Models.Store.SaveTask` | app/core/models.py:79-84 | replaces one task record, whose board exists; nothing else changes |
| `Models.Store.DeleteTask` | app/core/models.py:79-84 | removes exactly that task |
| `Models.Store.DeleteBoard` | app/core/models.py:84 | removes the board and exactly the tasks on it; no task is left on a missing board |
| `Models.Store.DeleteGroup` | app/core/models.py:69-84 | removes the group, exactly its boards and exactly their tasks; no dangling references remain |
| `Models.Store.DeleteUser` | app/core/models.py:98-99 | removes the user and its membership and admin rows; groups, boards and tasks stay |
| `Permissions.CheckPermission` | app/core/permissions.py:4-9 | grants iff `has_permission` holds; otherwise denies with the class's message, or None if it has none |
| `Permissions.CheckObjectPermission` | app/core/permissions.py:12-17 | grants iff `has_object_permission` holds for the object; otherwise denies with the class's message |
| `Permissions.IsAppToken` | app/core/permissions.py:20-29 | message 'App Token required!'; grants iff the user is in the auth group named exactly 'App Token'; the inherited object check always grants |
| `Permissions.AppTokenDecision` | app/core/permissions.py:20-29 | checking `IsAppToken` grants exactly 'App Token' members and denies everyone else with 'App Token required!'; twix groups play no part |
| `Permissions.NewUserIsNoAppToken` | app/core/permissions.py:24-29 | a freshly created user does not pass `IsAppToken` |
| `Serializers.Drop` | app/core/serializers.py:18-22 | popping names keeps exactly the fields not named, and never lengthens the list |
| `Serializers.DropKeepsOrder` | app/core/serializers.py:15-22 | surviving fields keep their original order |
| `Serializers.ExcludeAllSpec` | app/core/serializers.py:20-22 | the exclude loop succeeds iff the excluded names are distinct existing fields, and then removes exactly them |
| `Serializers.FieldsBranch` | app/core/serializers.py:14-19 | when exactly one option is truthy and `fields` is given, the result is the declared fields ∩ `fields`; unknown names are ignored, never raise |
| `Serializers.EmptyFieldsRemovesAll` | app/core/serializers.py:14-19 | `fields=[]` with a non-empty `exclude` removes every field |
| `Serializers.ExcludeBranch` | app/core/serializers.py:20-22 | with `fields` None and a non-empty `exclude`, success iff the excluded names are distinct fields, and then exactly they are removed |
| `Serializers.ExcludeUnknownFails` | app/core/serializers.py:21-22 | excluding a name that is not a field raises KeyError |
| `Serializers.BothOrNeitherUnchanged` | app/core/serializers.py:14 | if both or neither option is truthy, the fields are unchanged |
| `Serializers.ProjectKeepsOrder` | app/core/serializers.py:14-22 | every successful projection is a subset of the declared fields, in their original order |
| `Serializers.DynamicModelSerializer.ApplyFieldOptions` | app/core/serializers.py:7-22 | popping in place leaves exactly the fields of `Project`, or reports the KeyError `Project` predicts |
| `TwixViews.GroupScope` | app/twix/views.py:167-173 | the group scope is exactly the groups whose `users` contain the principal (the principal's twix groups) |
| `TwixViews.BoardScope` | app/twix/views.py:23-29 | a board is in scope iff it exists and its group is in the principal's group scope |
| `TwixViews.TaskScope` | app/twix/views.py:95-101 | a task is in scope iff it exists and its board is in the principal's board scope |
| `TwixViews.ScopesIgnoreAdmins` | app/twix/views.py:167-173 | the `admins` relation and group names influence no scope; only `users` does |
| `TwixViews.NonMemberSeesNothingOfGroup` | app/twix/views.py:23-29 | a non-member sees neither the group nor its boards nor their tasks |
| `TwixViews.JoiningWidensScope` | app/twix/views.py:23-29 | joining a group adds exactly that group, and exactly its boards, to the principal's scopes |
| `TwixViews.NewUserScope` | app/twix/views.py:167-173 | right after `create_user`, the new user sees exactly its personal group and no board or task |
| `TwixViews.RemovedUserSeesNothing` | app/twix/views.py:23-29 | once its memberships are removed, a user's scopes are empty |
| `TwixViews.PatchesAreIdempotent` | app/twix/views.py:73-76 | an empty partial update is the identity, and repeating an update changes nothing more |
| `TwixViews.ViewBoard` | app/twix/views.py:31-36 | lists exactly the board scope, changing nothing |
| `TwixViews.CreateBoard` | app/twix/views.py:38-40 | a blank name gives ValidationError; otherwise a missing group gives IntegrityError; otherwise a fresh board with the given fields; the principal's scope is not consulted; nothing is stored on an error |
| `TwixViews.ViewBoardById` | app/twix/views.py:57-67 | retrieval succeeds iff the board is in scope, and returns the stored board |
| `TwixViews.UpdateBoardById` | app/twix/views.py:57-76 | out of scope gives NotFound; a blank new name gives ValidationError; otherwise exactly that board is patched; on an error nothing changes |
| `TwixViews.DestroyBoardById` | app/twix/views.py:57-80 | succeeds iff the board is in scope; then the board and exactly its tasks go, and every surviving task keeps its value; no task is added; otherwise nothing changes |
| `TwixViews.ViewTask` | app/twix/views.py:103-108 | lists exactly the task scope, changing nothing |
| `TwixViews.CreateTask` | app/twix/views.py:110-112 | a blank name gives ValidationError; otherwise a missing board gives IntegrityError; otherwise a fresh task with the given fields; the principal's scope is not consulted; nothing is stored on an error |
| `TwixViews.ViewTaskById` | app/twix/views.py:129-139 | retrieval succeeds iff the task is in scope, and returns the stored task |
| `TwixViews.UpdateTaskById` | app/twix/views.py:129-148 | out of scope gives NotFound; a blank new name gives ValidationError; otherwise exactly that task is patched; on an error nothing changes |
| `TwixViews.DestroyTaskById` | app/twix/views.py:129-152 | succeeds iff the task is in scope; then exactly that task goes; otherwise nothing changes |
| `TwixViews.ViewGroup` | app/twix/views.py:175-180 | lists exactly the group scope, changing nothing |
| `TwixViews.CreateGroup` | app/twix/views.py:182-184 | a blank name gives ValidationError and stores nothing; otherwise a fresh group with no members or admins; the principal's scope is not consulted |
| `TwixViews.ViewGroupById` | app/twix/views.py:201-211 | retrieval succeeds iff the group is in scope, and returns the stored group |
| `TwixViews.UpdateGroupById` | app/twix/views.py:201-220 | out of scope gives NotFound; a blank new name gives ValidationError; otherwise exactly that group is patched; on an error nothing changes |
| `TwixViews.DestroyGroupById` | app/twix/views.py:201-224 | succeeds iff the group is in scope; then the group, exactly its boards and exactly their tasks go, and every surviving board and task keeps its value; none is added; otherwise nothing changes |
| `UserViews.UserQueryset` | app/user/views.py:28-36 | every stored user except those with email 'admin@asperal.com' or 'register@twix.com' |
| `UserViews.ReservedNeverListed` | app/user/views.py:28-36 | a reserved account is never in the user queryset |
| `UserViews.ListUser` | app/user/views.py:61-72 | without `email`, the whole queryset; with it, exactly the queryset members whose email matches; never a reserved account |
| `UserViews.ViewUser` | app/user/views.py:42-45 | returns the caller's own record |
| `UserViews.CreateUser` | app/user/views.py:47-50 | without the 'App Token' auth group the request is denied with 'App Token required!' and nothing is stored; otherwise a fresh user is inserted iff its email is non-empty and unused and its name is non-empty, and every other outcome is a ValidationError |
| `UserViews.UpdateUser` | app/user/views.py:38-55 | only the caller's record changes, by a partial update; an empty email, another user's email or an empty name is rejected with nothing changed |
| `UserViews.DestroyUser` | app/user/views.py:38-59 | deletes only the caller's record and its memberships; every other user record stays as it was |

## Left out

- Password hashing (`set_password`) is opaque. The credential is recorded as `HashOf(password)`, or `Unusable` for `None`.
- Token authentication and `IsAuthenticated` are not modelled. Every endpoint is given an authenticated principal.
- UUID generation is modelled as a counter of fresh ids.
- The regular-expression engine of `list_user` is not modelled. It is the parameter `matches`.
- Rendering and field lists of the serializers in app/twix/serializers.py and app/user/serializers.py are not modelled. This includes which fields an incoming request may set and nested representations. Only the user email checks (non-empty, unused by another user) and the non-blank `name` check of users, boards, tasks and groups are modelled.
- Updates cannot move a board to another group or a task to another board, or edit a group's members or admins. The serializers render those relations read-only or nested.
- `AuthTokenSerializer.validate` is not modelled. It wraps `authenticate`, a foreign call to Django's credential check.
- URL routing (app/app/urls.py, app/twix/urls.py, app/user/urls.py) and the migrations are not part of this model. The schema is the one in app/core/models.py.
- Task assignment, notifications, reminders and group member add/remove actions appear in no modelled source file. They are not modelled.
- `Serializers.DynamicModelSerializer.ApplyFieldOptions`: after a `KeyError`, the partly popped field list is not described, because the exception aborts the constructor.
- `Models.Store.CreateUser`: keyword arguments other than `name`, `is_active`, `is_staff` and `is_superuser` (`id`, `last_login`, an unknown name that makes the constructor raise) are not modelled.
- Field lengths (`max_length=255`) and email syntax validation are not modelled.
- Concurrency and transactions are not modelled. Each operation runs to completion on its own.
