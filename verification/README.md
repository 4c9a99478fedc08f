# Ludus: authorization and CRUD decisions

Ludus is an Express/MongoDB web application for a game-based learning
platform. Institutions (users) own classes (`turmas`), classes hold players
(`jogadores`), and administrators manage users and the game catalogue
(`jogos`). This project models the decision logic of `index.js`:

- the role resolver `isAdminPerfil`: a role value of any JavaScript shape is
  trimmed, lowercased and tested against the markers `admin`,
  `administrador` and `adm`;
- the ownership guard: `getUserId`, `isOwner` and `requireAdmin`, and the
  two-hop check that reaches a player through its class;
- the create, list, update and delete handlers of `/api/usuarios-instituicao`,
  `/api/jogos`, `/api/turmas` and `/api/jogadores`, including the order of
  their checks, the partial-update rules, the documents they store, and the
  status codes they answer with;
- the credential checks of `POST /login`.

Layout:

- `roles.dfy` (module `Roles`): JavaScript role values, `trim`,
  `toLowerCase`, `Array.prototype.some` and `isAdminPerfil`.
- `records.dfy` (module `Records`): the four documents, the schema
  validation the document layer runs on every write, and the password digest.
  `bcrypt` is a symbolic term `Bcrypt(rounds, salt, key)`, whose key is
  the first 72 characters of the password; the random salt is a parameter
  of every handler that hashes.
- `guard.dfy` (module `Guard`): the session principal, the owner test, the
  guards of the class and player routes, the owner given to a new record,
  and the scopes of the list queries.
- `routes.dfy` (module `Routes`): each handler as a pure function from the
  database before a request to the database after it and the response. The
  document layer's `save` and `create` fail (a 500) on a schema violation or
  a unique-index clash.
- `store.dfy` (module `App`): the class `Store`, which holds the four
  collections as maps. Each handler is a method that fetches a document,
  overwrites its fields one by one under the route's `if (field)` guards,
  and then saves, inserts or deletes. Each route handler method is proved
  to compute exactly the matching `Routes` function; those that write also
  keep `Valid()`: the unique indexes hold and every stored document fits
  its schema. The document-layer methods (`Save*`, `Insert*`) state their
  new state through the `Routes` write functions, and `FindUsuarioByEmail`
  and `Login` state their results outright.
- `properties.dfy` (module `Properties`): properties across handlers.
  - Every request keeps the database invariant, and so does every sequence
    of requests from any principals, interleaved in any order.
  - A request that fails writes nothing.
  - A non-admin, over any number of requests, can change no user, no game,
    no other user's class and no player in such a class, and never puts a
    player into another user's class.
  - Each update keeps every absent or empty field as stored, except the
    user's `perfil`, which any value other than undefined replaces.
  - The checks come in a fixed order: on the class and player routes,
    404 before 403; on the admin-only user and game routes, 403 first.
  - A sample session of three principals.

Three behaviours of the code differ from what the routes evidently intend.
The model keeps all three as written:

- **Creating a player always fails with 500 once its checks pass.** The
  player schema requires `senha_visivel` (`models/Jogador.js:6`). The create
  handler never sets it (`index.js:450-456`), so `Jogador.create` is
  rejected and nothing is stored. `Properties.CreateJogadorNeverStores`
  states this. `Properties.Session` therefore shows the player create in a
  class the caller owns ending in 500, and both player lists empty.
- **A duplicate e-mail is answered differently on create and on update.**
  Creating a user with a registered e-mail is a 400 from the handler's own
  lookup (`index.js:275-276`). Changing a user's e-mail to one already in use
  has no such check (`index.js:304`). It fails only at the unique index of
  `models/Usuario.js:5`, which surfaces as a 500.
  `Properties.DuplicateEmail` states both.
- **An empty role erases the stored roles on a user update.** Every other
  field of the update is written only when truthy, but the role test is
  `perfil !== undefined` (`index.js:306`). An empty string, `null` or any
  other non-array, non-string role therefore stores the empty list, and an
  admin user updated that way loses the admin role.
  `Properties.EmptyPerfilClearsRoles` states this.

## Model

| member | source | states |
|---|---|---|
| Roles.IsAdminPerfil | index.js:107-117 | `isAdminPerfil`: a string role is admin when its trimmed, lowercased text is a marker; an array role when some element is such a string; every other value is not (characterised by `Roles.AdminStringIff` and `Roles.ArrayAdminIff`) |
| Roles.Normalize | index.js:108 | `normalize`: a string is trimmed and lowercased, every other value passes through |
| Guard.GetUserId | index.js:148 | `getUserId`: the id of the session principal |
| Guard.IsOwner | index.js:149 | `isOwner`: the owner and the caller's id are both non-empty and equal as strings |
| Guard.IsAdmin | index.js:140 | the admin test of `requireAdmin` and of every route's `isAdmin` local: `isAdminPerfil` of the session's role |
| Guard.MayActOnTurma | index.js:416 | the class guard (also at lines 433, 448 and 504): an admin, or the owner of the class by `isOwner` |
| Guard.MayActOnJogador | index.js:496 | the player guard (also at line 521): an admin, or the owner of the player's class by `isOwner`; a missing class has no owner |
| Guard.OwnerOnCreate | index.js:392 | the owner of a new class (and, at line 455, of a new player): the caller for a non-admin; `body.createdBy`, or else the caller, for an admin |
| Guard.TurmaScope | index.js:402-408 | the classes a caller lists: all for an admin, those it owns otherwise |
| Guard.JogadorScope | index.js:466-488 | the players a caller lists: all (or one class's) for an admin, those in the caller's own classes otherwise |
| Routes.CreateUsuario | index.js:271-291 | `POST /api/usuarios-instituicao`: 403, 400 on a missing field or a registered e-mail, else the new user inserted (201) or 500 |
| Routes.ListUsuarios | index.js:293-296 | `GET /api/usuarios-instituicao`: 403 for a non-admin, else every user |
| Routes.UpdateUsuario | index.js:298-314 | `PUT /api/usuarios-instituicao/:id`: 403, 404, else the patched user saved (200) or 500 |
| Routes.DeleteUsuario | index.js:316-320 | `DELETE /api/usuarios-instituicao/:id`: 403, 404, else the user removed |
| Routes.CreateJogo | index.js:323-351 | `POST /api/jogos`: 403, 400 on a missing name or Unity id, else the new game inserted (201) or 500 |
| Routes.ListJogos | index.js:353-356 | `GET /api/jogos`: every game |
| Routes.UpdateJogo | index.js:358-379 | `PUT /api/jogos/:id`: 403, 404, else the patched game saved (200) or 500 |
| Routes.DeleteJogo | index.js:381-385 | `DELETE /api/jogos/:id`: 403, 404, else the game removed |
| Routes.CreateTurma | index.js:388-400 | `POST /api/turmas`: 400 on a missing name or owner, else the new class inserted (201) or 500 |
| Routes.ListTurmas | index.js:402-408 | `GET /api/turmas`: the caller's scope of classes |
| Routes.UpdateTurma | index.js:410-426 | `PUT /api/turmas/:id`: 404, 403, else the patched class saved (200) or 500 |
| Routes.DeleteTurma | index.js:428-436 | `DELETE /api/turmas/:id`: 404, 403, else the class removed |
| Routes.CreateJogador | index.js:439-464 | `POST /api/jogadores`: 400, 404 on a missing class, 403, else the insert (which the schema rejects: 500) |
| Routes.ListJogadores | index.js:466-488 | `GET /api/jogadores`: the caller's scope of players |
| Routes.UpdateJogador | index.js:490-514 | `PUT /api/jogadores/:id`: 404, 403, 404 or 403 on a reassigned class, else the patched player saved (200) or 500 |
| Routes.DeleteJogador | index.js:516-524 | `DELETE /api/jogadores/:id`: 404, 403, else the player removed |
| Routes.PatchUsuario | index.js:303-307 | the user update's field writes: each truthy field (e-mail lowercased, password hashed) and any `perfil` other than undefined overwrite the stored value |
| Routes.PatchJogo | index.js:365-371 | the game update's field writes: each truthy field overwrites the stored value, an uploaded file the icon |
| Routes.PatchTurma | index.js:418-419 | the class update's field writes: a truthy name, and a truthy `createdBy` only for an admin |
| Routes.PatchJogador | index.js:499-507 | the player update's field writes: a truthy login (lowercased), name, class and password (hashed) |
| Routes.LoginKey | index.js:159 | the login key: `email`, else `username`, else empty, lowercased |
| Routes.LoginSecret | index.js:160 | the login secret: `password`, else `senha` |
| Roles.TrimStartSpec | index.js:108 | what `trimStart` returns is a suffix of the input, everything it drops is white space, and it starts with a non-space unless empty |
| Roles.TrimEndSpec | index.js:108 | what `trimEnd` returns is a prefix of the input, everything it drops is white space, and it ends with a non-space unless empty |
| Roles.TrimSpec | index.js:108 | `trim` returns the infix after the leading white space; it has no white space at either end, and everything after it is white space |
| Roles.TrimIgnoresPadding | index.js:108 | white space added around any string does not change what `trim` returns |
| Roles.SomeIff | index.js:111 | `some` holds exactly when one element passes the test |
| Roles.CountsAsAdminIff | index.js:108-111 | inside an array, an element counts exactly when it is a string that is admin on its own; nested arrays and other values never count |
| Roles.ArrayAdminIff | index.js:110-111 | an array role is admin exactly when one of its elements is an admin string |
| Roles.ArrayAdminAppend | index.js:110-111 | concatenating two role arrays ors their admin status |
| Roles.TrimStartPadded | index.js:108 | white space before a string that starts with a non-space is exactly what `trimStart` removes |
| Roles.TrimEndPadded | index.js:108 | white space after a string that ends with a non-space is exactly what `trimEnd` removes |
| Roles.TrimOfPadded | index.js:108 | trimming any white-space padding around a string with non-space ends gives that string back |
| Roles.PaddingIrrelevant | index.js:108-114 | padding a role string with white space never changes whether it is admin |
| Roles.LowerMarkerEnds | index.js:108-109 | a string that lowercases to a marker is non-empty and has no white space at either end |
| Roles.AdminStringPadded | index.js:112-114 | an admin role string is a marker in any ASCII case, surrounded by white space |
| Roles.PaddedAdminString | index.js:112-114 | a marker in any ASCII case, surrounded by white space, is an admin role string |
| Roles.AdminStringIff | index.js:107-117 | a role string is admin exactly when it is a marker in any ASCII case surrounded by white space |
| Roles.TrimUnpadded | index.js:108 | a string with no white space at its ends is left alone by `trim` |
| Roles.StringRoleExamples | index.js:107-117 | `"adm"` and `" ADMIN "` are admin roles |
| Roles.NonAdminExamples | index.js:107-117 | `"administrator"` is not an admin role; null, undefined and any other non-string, non-array value give false |
| Roles.ArrayRoleExamples | index.js:107-117 | `["Administrador"]` and `["aluno", "Adm"]` are admin; `[]` is not, and neither is an array nested in an array |
| Records.VerifyHash | index.js:168 | `bcrypt.compare` accepts the password a digest was made from, and exactly the passwords that agree with it on the first 72 characters; among passwords no longer than that, only the password itself |
| Records.LongPasswordsCollide | index.js:168 | two passwords that differ only after the 72nd character both verify against either one's digest |
| Guard.NonAdminMayActOnTurmaIff | index.js:149 | a non-admin passes the class guard exactly when its id is non-empty and equals the class's owner |
| Guard.PlayerGuardGoesThroughClass | index.js:494-496 | for a non-admin, the player guard is the class guard applied to the player's class; a player whose class is gone is refused; the player's own `createdBy` never matters |
| Guard.OwnerOnCreateChoice | index.js:392 | a non-admin's new record is owned by the caller whatever the body says; an admin's by `body.createdBy`, or by the admin when that is absent |
| Guard.TurmaScopeMatchesGuard | index.js:402-408 | a caller lists exactly the classes it may update and delete, each as stored |
| Guard.JogadorScopeMatchesGuard | index.js:466-488 | without a `turma` query, a caller lists exactly the players it may update and delete, each as stored |
| Guard.NonAdminPlayerList | index.js:479-483 | a non-admin who owns no class lists no player, and the `turma` query never widens a non-admin's list |
| Guard.AdminPlayerList | index.js:471-476 | an admin lists every player, or with a `turma` query exactly the players of that class |
| Routes.SaveUsuarioConsistent | models/Usuario.js:3-10 | a user write the document layer accepts keeps e-mails unique and every document within its schema |
| Routes.SaveJogoConsistent | models/Jogo.js:3-13 | a game write the document layer accepts keeps the database invariant |
| Routes.SaveTurmaConsistent | models/Turma.js:3-7 | a class write the document layer accepts keeps the database invariant |
| Routes.SaveJogadorConsistent | models/Jogador.js:3-11 | a player write the document layer accepts keeps logins unique and every document within its schema |
| Routes.PerfilArray | index.js:278 | the stored role list has at most one element: a prefix of an array role, empty exactly when the array is, or a non-empty string role wrapped in a one-element list |
| App.Store.SaveUsuario | index.js:308 | `user.save()`: succeeds exactly when the schema holds and no other user has the e-mail; then the user is stored under its id, else nothing changes |
| App.Store.InsertUsuario | index.js:279-285 | `Usuario.create`: a save under an unused id |
| App.Store.SaveJogo | index.js:373 | `jogo.save()`: succeeds exactly when the schema holds; then the game is stored, else nothing changes |
| App.Store.InsertJogo | index.js:345 | `Jogo.create`: a save under an unused id |
| App.Store.SaveTurma | index.js:420 | `turma.save()`: succeeds exactly when the schema holds; then the class is stored, else nothing changes |
| App.Store.InsertTurma | index.js:394 | `Turma.create`: a save under an unused id |
| App.Store.SaveJogador | index.js:508 | `jogador.save()`: succeeds exactly when the schema holds and no other player has the login; then the player is stored, else nothing changes |
| App.Store.InsertJogador | index.js:458 | `Jogador.create`: a save under an unused id |
| App.Store.FindUsuarioByEmail | index.js:275 | finds a user with exactly that e-mail, and finds none exactly when no user has it |
| App.Store.Login | index.js:159-171 | 400 exactly when the lowercased e-mail or username, or the password, is missing; success exactly when a user with that e-mail accepts the password, and then the principal is that user with their role list; otherwise 401 |
| App.Store.CreateUsuario | index.js:271-291 | non-admin 403; a missing field 400; a registered lowercased e-mail 400; otherwise the user with the lowercased e-mail, the password hash and the stored role list is inserted (201), or 500 when the insert is rejected; keeps the invariant |
| App.Store.ListUsuarios | index.js:293-296 | non-admin 403, otherwise every user |
| App.Store.UpdateUsuario | index.js:298-314 | non-admin 403; a missing user 404; otherwise only the truthy fields are overwritten (e-mail lowercased, password hashed, role replaced unless absent) and saved, or 500 when the save is rejected; keeps the invariant |
| App.Store.DeleteUsuario | index.js:316-320 | non-admin 403; a missing user 404; otherwise the user is removed and the acknowledgement returned |
| App.Store.CreateJogo | index.js:323-351 | non-admin 403; a missing name or Unity id 400; otherwise the game, with the optional fields only when truthy and the icon path of the upload, is inserted (201), or 500 |
| App.Store.ListJogos | index.js:353-356 | every game, for any principal |
| App.Store.UpdateJogo | index.js:358-379 | non-admin 403; a missing game 404; otherwise only the truthy fields and an uploaded icon are overwritten and saved, or 500 |
| App.Store.DeleteJogo | index.js:381-385 | non-admin 403; a missing game 404; otherwise the game is removed and the acknowledgement returned |
| App.Store.CreateTurma | index.js:388-400 | the owner is chosen as `OwnerOnCreate`; a missing name or owner 400; otherwise the class is inserted (201), or 500 |
| App.Store.ListTurmas | index.js:402-408 | the classes of `TurmaScope`: all for an admin, the caller's own otherwise |
| App.Store.UpdateTurma | index.js:410-426 | a missing class 404; failing the class guard 403; otherwise the name when truthy, and the owner only for an admin, are overwritten and saved, or 500 |
| App.Store.DeleteTurma | index.js:428-436 | a missing class 404; failing the class guard 403; otherwise the class is removed and the acknowledgement returned |
| App.Store.CreateJogador | index.js:439-464 | a missing field 400; a missing class 404; failing the class guard 403; otherwise the player with the lowercased login and the password hash is inserted, which the schema rejects (500) |
| App.Store.ListJogadores | index.js:466-488 | the players of `JogadorScope` |
| App.Store.UpdateJogador | index.js:490-514 | a missing player 404; failing the player guard 403; a reassigned class that is missing 404 or not the caller's 403, with nothing saved; otherwise only the truthy fields are overwritten (login lowercased, password hashed) and saved, or 500 |
| App.Store.DeleteJogador | index.js:516-524 | a missing player 404; failing the player guard 403; otherwise the player is removed and the acknowledgement returned |
| Properties.UsuarioRoutesConsistent | index.js:271-320 | the user routes keep the unique indexes and the schemas |
| Properties.JogadorRoutesConsistent | index.js:439-524 | the player routes keep the unique indexes and the schemas |
| Properties.JogoRoutesConsistent | index.js:323-385 | the game routes keep the unique indexes and the schemas |
| Properties.TurmaRoutesConsistent | index.js:388-436 | the class routes keep the unique indexes and the schemas |
| Properties.DispatchConsistent | index.js:271-524 | every write request keeps the unique indexes and the schemas |
| Properties.RunConsistent | index.js:271-524 | any sequence of requests, from any principals interleaved in any order, keeps the unique indexes and the schemas |
| Properties.FailedRequestWritesNothing | index.js:271-524 | a request that does not succeed leaves the database as it was |
| Properties.AdminOnlyRoutesRefuseOthers | index.js:138-146 | a non-admin gets 403 on every user and game write, and nothing changes |
| Properties.NonAdminPlayerGuard | index.js:496 | a non-admin passes the player guard only for a player of one of the caller's own classes |
| Properties.NonAdminCreateTurmaConfined | index.js:388-400 | a non-admin's class create either changes nothing, or adds exactly one class under the new id, owned by the caller, and changes nothing else |
| Properties.NonAdminUpdateTurmaConfined | index.js:410-426 | a non-admin's class update changes only a class the caller owns, and it stays theirs |
| Properties.NonAdminDeleteTurmaConfined | index.js:428-436 | a non-admin's class delete removes only a class the caller owns |
| Properties.NonAdminTurmaConfined | index.js:388-436 | every class request of a non-admin is confined to the caller's own classes |
| Properties.NonAdminCreateJogadorConfined | index.js:439-464 | a non-admin's player create never writes |
| Properties.NonAdminUpdateJogadorConfined | index.js:490-514 | a non-admin's player update changes only a player of the caller's own class, keeps it in a class that is not someone else's, and leaves players with a missing class alone |
| Properties.NonAdminDeleteJogadorConfined | index.js:516-524 | a non-admin's player delete removes only a player of the caller's own class, never one whose class is missing |
| Properties.NonAdminJogadorConfined | index.js:439-524 | every player request of a non-admin changes only players of the caller's own classes, never puts a player into a class of someone else, and leaves every player whose class is missing as it is |
| Properties.NonAdminDispatchConfined | index.js:388-524 | one request of a non-admin changes no user, no game, no class of someone else and no player in such a class; every new or changed class is the caller's; no new or changed player is in a class of someone else; a player whose class is missing is left as it is |
| Properties.ConfinedTransitive | index.js:388-524 | two confined steps make one confined step, including the rule that no new or changed player lands in a class of someone else |
| Properties.NonAdminRunConfined | index.js:388-524 | over any sequence of a non-admin's requests, no user, no game, no class of someone else and no player in such a class changes, and no new or changed player is in a class of someone else |
| Properties.CreateTurmaOwnership | index.js:388-400 | a missing name or owner is exactly the 400 case, with nothing inserted; a created class is stored under the new id with the given name, owned by the caller (non-admin), or by `body.createdBy` or the admin (admin) |
| Properties.TurmaGuardOrder | index.js:410-436 | a missing class is 404 whoever asks; a non-admin who is not the owner gets 403 and nothing changes; a non-admin never reassigns the owner; a delete answers with the acknowledgement |
| Properties.CreateJogadorNeverStores | index.js:439-464 | a player create never stores anything; it is 500 exactly when all checks pass; the document built has the lowercased login, the password's hash, and fails the schema |
| Properties.CreateJogadorChecks | index.js:446-448 | with all fields present, a missing class is 404 and a class of someone else is 403 for a non-admin |
| Properties.JogadorGuardOrder | index.js:490-521 | a missing player is 404 whoever asks; a non-admin who does not own the player's class gets 403; the player's own `createdBy` does not change whether an update is refused |
| Properties.UpdateJogadorStores | index.js:490-514 | a successful update checked a reassigned class; stores the lowercased login, the new name, and a hash the new password verifies against; each absent or empty field keeps its stored value, as do `senha_visivel` and the owner; a refused reassignment saves nothing |
| Properties.RenameJogadorOnly | index.js:499-507 | updating only the name leaves login, password hash and class unchanged |
| Properties.EmptyPatchKeepsRecord | index.js:303-507 | a request whose fields are each absent or empty, in any mix, changes no stored field, on any of the four collections, when the user update carries no `perfil`; any other `perfil` replaces the role list (see `Properties.EmptyPerfilClearsRoles`) |
| Properties.EmptyPerfilClearsRoles | index.js:306 | a successful user update whose `perfil` is an empty string, null or another non-array, non-string value stores the empty role list, which is not admin; for an admin caller and a user with roles, such an update either does that or fails with 500 |
| Properties.UpdateUsuarioFields | index.js:298-314 | a successful user update stores the patched user; each truthy field is taken from the request (e-mail lowercased, password as a hash that accepts it), each absent or empty one keeps its stored value; the role list is replaced exactly when a role is sent |
| Properties.UpdateJogoFields | index.js:358-379 | a successful game update stores the patched game; each truthy field is taken from the request, each absent or empty one keeps its stored value; an upload replaces the icon; the owner never changes |
| Properties.UpdateTurmaFields | index.js:410-426 | a successful class update passed the guard and stores the patched class; a truthy name replaces the stored one; the owner changes only when an admin sends a truthy `createdBy` |
| Properties.CreateUsuarioStores | index.js:271-291 | a non-admin gets 403 and a missing field 400, without a write; a created user is stored under the new id with the e-mail lowercased, the password only as a hash that accepts it and the role list built from `perfil`; with all fields present, an unregistered e-mail and an unused id, the user is created |
| Properties.CreateJogoStores | index.js:323-351 | a non-admin gets 403 and a missing name or Unity id 400, without a write; a created game is stored under the new id with name, Unity id, description and owner as sent, the link and numeric fields only when truthy, the icon only for an upload; with both required fields and an unused id, the game is created |
| Properties.DuplicateEmail | index.js:274-308 | creating a user with a registered e-mail is a 400; changing a user's e-mail to another user's is a 500; neither writes |
| Properties.SingletonAdmin | index.js:110-111 | a one-element role array is admin exactly when its element counts |
| Properties.StoredArrayPerfilAdmin | index.js:278 | for an array role, the stored list is admin exactly when the first element counts, and then the array is admin |
| Properties.StoredStringPerfilAdmin | index.js:278 | for a string role, the stored list is admin exactly when the string is |
| Properties.StoredPerfilAdmin | index.js:278-306 | the stored role list is admin exactly when the role is an admin string or an array whose first element is one; it is admin only if the role was |
| Properties.LaterMarkerDropped | index.js:278 | `["aluno", "admin"]` is an admin role, but the list stored for it is not |
| Properties.SessionClasses | index.js:388-436 | the class steps of the sample session: the admin's class is created, another user is refused its delete (403) and creates a class owned by themself |
| Properties.SessionPlayers | index.js:428-488 | the player steps of the sample session: 403 in the admin's class, 500 in the user's own, empty lists, and the user's class deleted |
| Properties.Session | index.js:388-488 | a session: an admin's class; another user refused its delete (403); that user's class owned by them whatever they name; a player in the admin's class 403; a player in their own class 500; empty player lists; nothing for a third user; the user's class deleted |

## Left out

- Express setup, static files, the view routes and rendering, and the
  `{ error }` JSON bodies. A response is modelled by its status and, for
  400 and 404, its message.
- Sessions. The principal `(id, perfil)` is a parameter of every handler.
  `requireAuthApi` rejects requests without a session before the core runs.
  The login handler's session write and redirect are not modelled, only its
  credential checks.
- Multer uploads. The stored file name comes from the clock and a random
  number, and the file goes to disk. The upload is an optional file-name
  input, and the icon path is `/uploads/` followed by it.
- The bcrypt algorithm and its random salt. A digest is a symbolic term;
  the salt is a parameter. `compare` re-hashes with the digest's own salt.
- Records.VerifyHash: bcrypt's 72-byte limit is counted in characters, so
  for passwords with multi-byte UTF-8 characters the cut falls elsewhere;
  and bcrypt is treated as collision-free on the key it hashes.
- Fresh document ids. `newId` is a parameter of every create, so the model
  also covers an insert under an id already in use, answered with 500;
  MongoDB's fresh ObjectIds never produce that case.
- The MongoDB connection and the document layer's type casting:
  - Ids are plain strings. An id that is not a valid ObjectId raises a
    CastError, which is not modelled: on the routes that catch errors it
    becomes their 500, while the delete routes have no `try`, so there it
    escapes the handler.
  - `total_niveis` and `xp_maxima` keep the submitted text; the cast to
    Number is not modelled.
  - The cast of role-list elements to String is not modelled.
  - Request fields are strings or absent; other JSON values are not modelled.
- `populate`. It becomes a map lookup in the guards. The projections it adds
  to list results, and the order of list results, are not modelled: a list
  is a map from id to document.
- `createdAt` defaults.
- `ensureAdmin` and `/seed-admin`. They are startup seeding driven by
  environment variables.
- Interleaving between the awaits of concurrent requests. Each request is
  one atomic step.
- `Json/cafeteria.js` and the unused `Categoria` and `ConteudoRelacionado`
  models.
- Roles.Lower: lowercases ASCII `A`-`Z` only. The rest of Unicode case
  mapping in `toLowerCase` is not modelled.
- Guard.TurmaScopeMatchesGuard, Guard.JogadorScopeMatchesGuard: they assume a
  non-empty principal id. With an empty id a non-admin could list classes
  whose owner is the empty string, but `isOwner` refuses to act on them.
- Properties.NonAdminRunConfined: protects only players whose class exists
  and belongs to someone else. A player whose class is missing is protected
  for one request (`Properties.NonAdminDispatchConfined`), but not over a
  run, because a later class could take the deleted class's id.
