/** The ownership authorization guard: who may act on which class and player,
    who owns a newly created record, and how list queries are scoped. */
module Guard {
  import opened Roles
  import opened Records

  /** The session principal: the user id and the role value stored in the
      session at login. A request without a session never reaches the core. */
  datatype Principal = Principal(id: Id, perfil: JsVal)

  /** `getUserId`. */
  function GetUserId(p: Principal): Id {
    p.id
  }

  /** What `requireAdmin` and every `isAdmin` local compute. */
  predicate IsAdmin(p: Principal) {
    IsAdminPerfil(p.perfil)
  }

  /** `isOwner(createdBy, userId)`: both present and truthy, and equal as
      strings. */
  predicate IsOwner(createdBy: Field, userId: Id) {
    Truthy(createdBy) && userId != "" && createdBy.value == userId
  }

  /** The guard of the class routes: an admin, or the class's owner. */
  predicate MayActOnTurma(p: Principal, t: Turma) {
    IsAdmin(p) || IsOwner(Some(t.createdBy), GetUserId(p))
  }

  /** `jogador.turma?.createdBy` once `turma` is populated: the owner of the
      player's class, or nothing when that class no longer exists. */
  function ClassOwner(turmas: map<Id, Turma>, turma: Id): Field {
    if turma in turmas then Some(turmas[turma].createdBy) else None
  }

  /** The guard of the player routes: an admin, or the owner of the player's
      class. The player's own `createdBy` plays no part. */
  predicate MayActOnJogador(p: Principal, turmas: map<Id, Turma>, j: Jogador) {
    IsAdmin(p) || IsOwner(ClassOwner(turmas, j.turma), GetUserId(p))
  }

  /** The owner recorded on a new class or player:
      `isAdmin ? (req.body.createdBy || userId) : userId`. */
  function OwnerOnCreate(p: Principal, bodyCreatedBy: Field): Id {
    if IsAdmin(p) && Truthy(bodyCreatedBy) then bodyCreatedBy.value else GetUserId(p)
  }

  /** The ids of the classes the query `{ createdBy: userId }` finds. */
  function OwnedTurmaIds(p: Principal, turmas: map<Id, Turma>): set<Id> {
    set t | t in turmas && turmas[t].createdBy == GetUserId(p)
  }

  /** The classes `GET /api/turmas` returns. */
  function TurmaScope(p: Principal, turmas: map<Id, Turma>): map<Id, Turma> {
    if IsAdmin(p) then turmas
    else map t | t in OwnedTurmaIds(p, turmas) :: turmas[t]
  }

  /** The players `GET /api/jogadores` returns: for an admin all of them, or
      those of the class named by the `turma` query; for anyone else those
      whose class is one of the caller's, and none without a class. */
  function JogadorScope(p: Principal, turmas: map<Id, Turma>, jogadores: map<Id, Jogador>, turma: Field): map<Id, Jogador> {
    if IsAdmin(p) then
      if Truthy(turma) then map j | j in jogadores && jogadores[j].turma == turma.value :: jogadores[j]
      else jogadores
    else
      var owned := OwnedTurmaIds(p, turmas);
      if owned == {} then map[]
      else map j | j in jogadores && jogadores[j].turma in owned :: jogadores[j]
  }

  // ---------------------------------------------------------------------
  // Properties of the guard

  /** A non-admin may act on a class exactly when it has a non-empty id that
      equals the class's owner. */
  lemma NonAdminMayActOnTurmaIff(p: Principal, t: Turma)
    requires !IsAdmin(p)
    ensures MayActOnTurma(p, t) <==> p.id != "" && t.createdBy == p.id
  {
  }

  /** For a non-admin, the player guard is the class guard applied to the
      player's class; a player whose class is gone is refused; and the
      player's own `createdBy` never matters. */
  lemma PlayerGuardGoesThroughClass(p: Principal, turmas: map<Id, Turma>, j: Jogador, anyone: Id)
    requires !IsAdmin(p)
    ensures MayActOnJogador(p, turmas, j) <==> j.turma in turmas && MayActOnTurma(p, turmas[j.turma])
    ensures j.turma !in turmas ==> !MayActOnJogador(p, turmas, j)
    ensures MayActOnJogador(p, turmas, j.(createdBy := anyone)) == MayActOnJogador(p, turmas, j)
  {
  }

  /** A non-admin's new record is owned by the caller whatever `createdBy`
      the body carries; an admin's by `body.createdBy`, or by the admin when
      that is absent. */
  lemma OwnerOnCreateChoice(p: Principal, body: Field)
    ensures !IsAdmin(p) ==> OwnerOnCreate(p, body) == p.id
    ensures IsAdmin(p) && Truthy(body) ==> OwnerOnCreate(p, body) == body.value
    ensures IsAdmin(p) && !Truthy(body) ==> OwnerOnCreate(p, body) == p.id
  {
  }

  /** The class list and the class guard agree: a caller lists exactly the
      classes it may update and delete, each as stored. */
  lemma TurmaScopeMatchesGuard(p: Principal, turmas: map<Id, Turma>, t: Id)
    requires p.id != ""
    ensures t in TurmaScope(p, turmas) <==> t in turmas && MayActOnTurma(p, turmas[t])
    ensures t in TurmaScope(p, turmas) ==> TurmaScope(p, turmas)[t] == turmas[t]
  {
  }

  /** The unfiltered player list and the player guard agree: a caller lists
      exactly the players it may update and delete, each as stored. */
  lemma JogadorScopeMatchesGuard(p: Principal, turmas: map<Id, Turma>, jogadores: map<Id, Jogador>, j: Id)
    requires p.id != ""
    ensures j in JogadorScope(p, turmas, jogadores, None)
            <==> j in jogadores && MayActOnJogador(p, turmas, jogadores[j])
    ensures j in JogadorScope(p, turmas, jogadores, None) ==> JogadorScope(p, turmas, jogadores, None)[j] == jogadores[j]
  {
  }

  /** A non-admin who owns no class sees no player, and the `turma` query
      never widens what a non-admin sees. */
  lemma NonAdminPlayerList(p: Principal, turmas: map<Id, Turma>, jogadores: map<Id, Jogador>, turma: Field)
    requires !IsAdmin(p)
    ensures (forall t :: t in turmas ==> turmas[t].createdBy != p.id) ==> JogadorScope(p, turmas, jogadores, turma) == map[]
    ensures JogadorScope(p, turmas, jogadores, turma) == JogadorScope(p, turmas, jogadores, None)
  {
  }

  /** An admin's player list is the whole collection, or with a `turma`
      query exactly the players of that class. */
  lemma AdminPlayerList(p: Principal, turmas: map<Id, Turma>, jogadores: map<Id, Jogador>, turma: Field, j: Id)
    requires IsAdmin(p)
    ensures !Truthy(turma) ==> JogadorScope(p, turmas, jogadores, turma) == jogadores
    ensures Truthy(turma) ==>
              (j in JogadorScope(p, turmas, jogadores, turma) <==> j in jogadores && jogadores[j].turma == turma.value)
  {
  }
}
