/** Properties that relate several handlers, or a handler to the rules it is
    meant to enforce: the database invariant every request keeps, what a
    non-admin can and cannot change, the order of the checks, and what the
    create and update handlers actually store. */
module Properties {
  import opened Roles
  import opened Records
  import opened Guard
  import opened Routes

  /** A state-changing request to one of the four REST collections, with the
      body fields it carries. `salt` is the salt the hash call draws, and
      `newId` the id the store assigns to an inserted document. */
  datatype Request =
    | CreateUsuarioReq(nome: Field, email: Field, senha: Field, instituicao: Field, perfil: JsVal, salt: string, newId: Id)
    | UpdateUsuarioReq(id: Id, nome: Field, email: Field, senha: Field, instituicao: Field, perfil: JsVal, salt: string)
    | DeleteUsuarioReq(id: Id)
    | CreateJogoReq(nome: Field, descricao: Field, identificacao: Field, link: Field, totalNiveis: Field,
                    xpMaxima: Field, createdBy: Field, upload: Field, newId: Id)
    | UpdateJogoReq(id: Id, nome: Field, descricao: Field, identificacao: Field, link: Field, totalNiveis: Field,
                    xpMaxima: Field, upload: Field)
    | DeleteJogoReq(id: Id)
    | CreateTurmaReq(nome: Field, createdBy: Field, newId: Id)
    | UpdateTurmaReq(id: Id, nome: Field, createdBy: Field)
    | DeleteTurmaReq(id: Id)
    | CreateJogadorReq(nome: Field, login: Field, senha: Field, turma: Field, createdBy: Field, salt: string, newId: Id)
    | UpdateJogadorReq(id: Id, login: Field, senha: Field, turma: Field, nome: Field, salt: string)
    | DeleteJogadorReq(id: Id)
  {
    /** The routes guarded by `requireAdmin`. */
    predicate AdminOnly() {
      CreateUsuarioReq? || UpdateUsuarioReq? || DeleteUsuarioReq? || CreateJogoReq? || UpdateJogoReq? || DeleteJogoReq?
    }
  }

  /** A response with its body dropped: only the status is kept. */
  function Status<T>(o: Outcome<T>): (r: Outcome<Ack>)
    ensures r.Succeeded() <==> o.Succeeded()
    ensures o.Ok? <==> r.Ok?
    ensures !o.Succeeded() ==> r == match o
                                    case BadRequest(m) => BadRequest(m)
                                    case Unauthorized(m) => Unauthorized(m)
                                    case NotFound(m) => NotFound(m)
                                    case Forbidden => Forbidden
                                    case _ => ServerError
  {
    match o
    case Ok(_) => Ok(Ack)
    case Created(_) => Created(Ack)
    case BadRequest(m) => BadRequest(m)
    case Unauthorized(m) => Unauthorized(m)
    case Forbidden => Forbidden
    case NotFound(m) => NotFound(m)
    case ServerError => ServerError
  }

  function Keep<T>(s: Step<T>): Step<Ack> {
    Step(s.db, Status(s.out))
  }

  /** The handler a request is routed to. */
  function Dispatch(db: Db, p: Principal, req: Request): Step<Ack> {
    match req
    case CreateUsuarioReq(nome, email, senha, inst, perfil, salt, newId) =>
      Keep(CreateUsuario(db, p, nome, email, senha, inst, perfil, salt, newId))
    case UpdateUsuarioReq(id, nome, email, senha, inst, perfil, salt) =>
      Keep(UpdateUsuario(db, p, id, nome, email, senha, inst, perfil, salt))
    case DeleteUsuarioReq(id) => DeleteUsuario(db, p, id)
    case CreateJogoReq(nome, desc, ident, link, niveis, xp, createdBy, upload, newId) =>
      Keep(CreateJogo(db, p, nome, desc, ident, link, niveis, xp, createdBy, upload, newId))
    case UpdateJogoReq(id, nome, desc, ident, link, niveis, xp, upload) =>
      Keep(UpdateJogo(db, p, id, nome, desc, ident, link, niveis, xp, upload))
    case DeleteJogoReq(id) => DeleteJogo(db, p, id)
    case CreateTurmaReq(nome, createdBy, newId) => Keep(CreateTurma(db, p, nome, createdBy, newId))
    case UpdateTurmaReq(id, nome, createdBy) => Keep(UpdateTurma(db, p, id, nome, createdBy))
    case DeleteTurmaReq(id) => DeleteTurma(db, p, id)
    case CreateJogadorReq(nome, login, senha, turma, createdBy, salt, newId) =>
      Keep(CreateJogador(db, p, nome, login, senha, turma, createdBy, salt, newId))
    case UpdateJogadorReq(id, login, senha, turma, nome, salt) =>
      Keep(UpdateJogador(db, p, id, login, senha, turma, nome, salt))
    case DeleteJogadorReq(id) => DeleteJogador(db, p, id)
  }

  /** The database after one principal's requests, handled one after another. */
  function Run(db: Db, p: Principal, reqs: seq<Request>): Db
    decreases |reqs|
  {
    if reqs == [] then db else Run(Dispatch(db, p, reqs[0]).db, p, reqs[1..])
  }

  /** The database after requests from any principals, interleaved in any
      order, handled one after another. */
  function RunAll(db: Db, reqs: seq<(Principal, Request)>): Db
    decreases |reqs|
  {
    if reqs == [] then db else RunAll(Dispatch(db, reqs[0].0, reqs[0].1).db, reqs[1..])
  }

  // ---------------------------------------------------------------------
  // The database invariant

  /** The user routes keep the unique indexes and the schemas intact. */
  lemma UsuarioRoutesConsistent(db: Db, p: Principal, req: Request)
    requires Consistent(db)
    requires req.CreateUsuarioReq? || req.UpdateUsuarioReq? || req.DeleteUsuarioReq?
    ensures Consistent(Dispatch(db, p, req).db)
  {
    match req
    case CreateUsuarioReq(nome, email, senha, inst, perfil, salt, newId) =>
      if IsAdmin(p) && Truthy(nome) && Truthy(email) && Truthy(senha) && Truthy(inst) {
        var u := Usuario(nome.value, Lower(email.value), Hash(senha.value, salt), inst.value, PerfilArray(perfil));
        if InsertUsuario(db, newId, u).Some? {
          SaveUsuarioConsistent(db, newId, u);
        }
      }
    case UpdateUsuarioReq(id, nome, email, senha, inst, perfil, salt) =>
      if IsAdmin(p) && id in db.usuarios {
        var u := PatchUsuario(db.usuarios[id], nome, email, senha, inst, perfil, salt);
        if SaveUsuario(db, id, u).Some? {
          SaveUsuarioConsistent(db, id, u);
        }
      }
    case DeleteUsuarioReq(id) =>
  }

  /** The player routes keep the unique indexes and the schemas intact. */
  lemma JogadorRoutesConsistent(db: Db, p: Principal, req: Request)
    requires Consistent(db)
    requires req.CreateJogadorReq? || req.UpdateJogadorReq? || req.DeleteJogadorReq?
    ensures Consistent(Dispatch(db, p, req).db)
  {
    match req
    case CreateJogadorReq(nome, login, senha, turma, createdBy, salt, newId) =>
      if Truthy(nome) && Truthy(login) && Truthy(senha) && Truthy(turma) {
        var j := NewJogador(p, nome.value, login.value, senha.value, turma.value, createdBy, salt);
        if InsertJogador(db, newId, j).Some? {
          SaveJogadorConsistent(db, newId, j);
        }
      }
    case UpdateJogadorReq(id, login, senha, turma, nome, salt) =>
      if id in db.jogadores {
        var j := PatchJogador(db.jogadores[id], login, nome, turma, senha, salt);
        if SaveJogador(db, id, j).Some? {
          SaveJogadorConsistent(db, id, j);
        }
      }
    case DeleteJogadorReq(id) =>
  }

  /** The game routes keep the unique indexes and the schemas intact. */
  lemma JogoRoutesConsistent(db: Db, p: Principal, req: Request)
    requires Consistent(db)
    requires req.CreateJogoReq? || req.UpdateJogoReq? || req.DeleteJogoReq?
    ensures Consistent(Dispatch(db, p, req).db)
  {
    match req
    case CreateJogoReq(nome, desc, ident, link, niveis, xp, createdBy, upload, newId) =>
      if IsAdmin(p) && Truthy(nome) && Truthy(ident) {
        var jogo := Jogo(nome.value, desc, ident.value, IfTruthy(link), IconUrl(upload),
                         IfTruthy(niveis), IfTruthy(xp), createdBy);
        if InsertJogo(db, newId, jogo).Some? {
          SaveJogoConsistent(db, newId, jogo);
        }
      }
    case UpdateJogoReq(id, nome, desc, ident, link, niveis, xp, upload) =>
      if IsAdmin(p) && id in db.jogos {
        var jogo := PatchJogo(db.jogos[id], nome, desc, ident, link, niveis, xp, upload);
        if SaveJogo(db, id, jogo).Some? {
          SaveJogoConsistent(db, id, jogo);
        }
      }
    case DeleteJogoReq(id) =>
  }

  /** The class routes keep the unique indexes and the schemas intact. */
  lemma TurmaRoutesConsistent(db: Db, p: Principal, req: Request)
    requires Consistent(db)
    requires req.CreateTurmaReq? || req.UpdateTurmaReq? || req.DeleteTurmaReq?
    ensures Consistent(Dispatch(db, p, req).db)
  {
    match req
    case CreateTurmaReq(nome, createdBy, newId) =>
      var t := Turma(Pick(nome, ""), OwnerOnCreate(p, createdBy));
      if Truthy(nome) && InsertTurma(db, newId, t).Some? {
        SaveTurmaConsistent(db, newId, t);
      }
    case UpdateTurmaReq(id, nome, createdBy) =>
      if id in db.turmas {
        var t := PatchTurma(db.turmas[id], p, nome, createdBy);
        if SaveTurma(db, id, t).Some? {
          SaveTurmaConsistent(db, id, t);
        }
      }
    case DeleteTurmaReq(id) =>
  }

  /** Every request keeps the unique indexes and the schemas intact. */
  lemma DispatchConsistent(db: Db, p: Principal, req: Request)
    requires Consistent(db)
    ensures Consistent(Dispatch(db, p, req).db)
  {
    if req.CreateUsuarioReq? || req.UpdateUsuarioReq? || req.DeleteUsuarioReq? {
      UsuarioRoutesConsistent(db, p, req);
    } else if req.CreateJogadorReq? || req.UpdateJogadorReq? || req.DeleteJogadorReq? {
      JogadorRoutesConsistent(db, p, req);
    } else if req.CreateJogoReq? || req.UpdateJogoReq? || req.DeleteJogoReq? {
      JogoRoutesConsistent(db, p, req);
    } else {
      TurmaRoutesConsistent(db, p, req);
    }
  }

  /** Any sequence of requests, from any principals interleaved in any
      order, keeps the invariant. */
  lemma {:induction false} RunConsistent(db: Db, reqs: seq<(Principal, Request)>)
    requires Consistent(db)
    ensures Consistent(RunAll(db, reqs))
    decreases |reqs|
  {
    if reqs != [] {
      DispatchConsistent(db, reqs[0].0, reqs[0].1);
      RunConsistent(Dispatch(db, reqs[0].0, reqs[0].1).db, reqs[1..]);
    }
  }

  /** Validation and authorization run before any write, and a rejected
      write changes nothing: a request that does not succeed leaves the
      database as it was. */
  lemma FailedRequestWritesNothing(db: Db, p: Principal, req: Request)
    ensures !Dispatch(db, p, req).out.Succeeded() ==> Dispatch(db, p, req).db == db
  {
  }

  /** `requireAdmin`: a non-admin is refused every user and game write with
      403, and the database is unchanged. */
  lemma AdminOnlyRoutesRefuseOthers(db: Db, p: Principal, req: Request)
    requires !IsAdmin(p) && req.AdminOnly()
    ensures Dispatch(db, p, req) == Step(db, Forbidden)
  {
  }

  // ---------------------------------------------------------------------
  // Confinement of non-admins

  /** The class `c` exists and belongs to someone other than `p`. */
  predicate OthersClass(p: Principal, turmas: map<Id, Turma>, c: Id) {
    c in turmas && turmas[c].createdBy != p.id
  }

  /** What a non-admin's requests may change, from `before` to `after`:
      no user and no game; no class of someone else, and no player in a
      class of someone else; every class that is new or changed is the
      caller's own; and no player that is new or changed is put in a class
      of someone else. */
  ghost predicate Confined(p: Principal, before: Db, after: Db) {
    && after.usuarios == before.usuarios
    && after.jogos == before.jogos
    && (forall t :: OthersClass(p, before.turmas, t) ==> t in after.turmas && after.turmas[t] == before.turmas[t])
    && (forall t :: t in after.turmas && (t in before.turmas ==> after.turmas[t] != before.turmas[t])
          ==> after.turmas[t].createdBy == p.id)
    && (forall j :: j in before.jogadores && OthersClass(p, before.turmas, before.jogadores[j].turma)
          ==> j in after.jogadores && after.jogadores[j] == before.jogadores[j])
    && (forall j :: j in after.jogadores && (j in before.jogadores ==> after.jogadores[j] != before.jogadores[j])
          ==> !OthersClass(p, before.turmas, after.jogadores[j].turma))
  }

  /** A player whose class does not exist is left as it is. */
  ghost predicate OrphansKept(before: Db, after: Db) {
    forall j :: j in before.jogadores && before.jogadores[j].turma !in before.turmas
      ==> j in after.jogadores && after.jogadores[j] == before.jogadores[j]
  }

  /** A non-admin passes the player guard only for a player of one of the
      caller's own classes. */
  lemma NonAdminPlayerGuard(p: Principal, turmas: map<Id, Turma>, j: Jogador)
    requires !IsAdmin(p) && MayActOnJogador(p, turmas, j)
    ensures j.turma in turmas && turmas[j.turma].createdBy == p.id
    ensures !OthersClass(p, turmas, j.turma)
  {
  }

  /** A non-admin's class create either changes nothing or adds one class
      under the new id, owned by the caller, and nothing else. */
  lemma NonAdminCreateTurmaConfined(db: Db, p: Principal, nome: Field, createdBy: Field, newId: Id)
    requires !IsAdmin(p)
    ensures Confined(p, db, CreateTurma(db, p, nome, createdBy, newId).db)
    ensures var after := CreateTurma(db, p, nome, createdBy, newId).db;
            || after == db
            || (Truthy(nome) && newId !in db.turmas && after == db.(turmas := db.turmas[newId := Turma(nome.value, p.id)]))
  {
    OwnerOnCreateChoice(p, createdBy);
  }

  /** A non-admin updates only a class of their own, and it stays theirs. */
  lemma NonAdminUpdateTurmaConfined(db: Db, p: Principal, id: Id, nome: Field, createdBy: Field)
    requires !IsAdmin(p)
    ensures Confined(p, db, UpdateTurma(db, p, id, nome, createdBy).db)
  {
    if id in db.turmas && MayActOnTurma(p, db.turmas[id]) {
      NonAdminMayActOnTurmaIff(p, db.turmas[id]);
    }
  }

  /** A non-admin deletes only a class of their own. */
  lemma NonAdminDeleteTurmaConfined(db: Db, p: Principal, id: Id)
    requires !IsAdmin(p)
    ensures Confined(p, db, DeleteTurma(db, p, id).db)
  {
    if id in db.turmas && MayActOnTurma(p, db.turmas[id]) {
      NonAdminMayActOnTurmaIff(p, db.turmas[id]);
    }
  }

  /** A non-admin's class requests stay within the caller's own classes. */
  lemma NonAdminTurmaConfined(db: Db, p: Principal, req: Request)
    requires !IsAdmin(p)
    requires req.CreateTurmaReq? || req.UpdateTurmaReq? || req.DeleteTurmaReq?
    ensures Confined(p, db, Dispatch(db, p, req).db)
  {
    match req
    case CreateTurmaReq(nome, createdBy, newId) => NonAdminCreateTurmaConfined(db, p, nome, createdBy, newId);
    case UpdateTurmaReq(id, nome, createdBy) => NonAdminUpdateTurmaConfined(db, p, id, nome, createdBy);
    case DeleteTurmaReq(id) => NonAdminDeleteTurmaConfined(db, p, id);
  }

  /** A non-admin's player create never writes. */
  lemma NonAdminCreateJogadorConfined(db: Db, p: Principal, nome: Field, login: Field, senha: Field, turma: Field,
                                      createdBy: Field, salt: string, newId: Id)
    requires !IsAdmin(p)
    ensures CreateJogador(db, p, nome, login, senha, turma, createdBy, salt, newId).db == db
  {
    CreateJogadorNeverStores(db, p, nome, login, senha, turma, createdBy, salt, newId);
  }

  /** A non-admin updates only a player of one of the caller's own classes,
      and keeps it in such a class. */
  lemma NonAdminUpdateJogadorConfined(db: Db, p: Principal, id: Id, login: Field, senha: Field, turma: Field,
                                      nome: Field, salt: string)
    requires !IsAdmin(p)
    ensures Confined(p, db, UpdateJogador(db, p, id, login, senha, turma, nome, salt).db)
    ensures OrphansKept(db, UpdateJogador(db, p, id, login, senha, turma, nome, salt).db)
  {
    if id in db.jogadores && MayActOnJogador(p, db.turmas, db.jogadores[id]) {
      NonAdminPlayerGuard(p, db.turmas, db.jogadores[id]);
    }
  }

  /** A non-admin deletes only a player of one of the caller's own classes. */
  lemma NonAdminDeleteJogadorConfined(db: Db, p: Principal, id: Id)
    requires !IsAdmin(p)
    ensures Confined(p, db, DeleteJogador(db, p, id).db)
    ensures OrphansKept(db, DeleteJogador(db, p, id).db)
  {
    if id in db.jogadores && MayActOnJogador(p, db.turmas, db.jogadores[id]) {
      NonAdminPlayerGuard(p, db.turmas, db.jogadores[id]);
    }
  }

  /** A non-admin's player requests touch only players of the caller's own
      classes, and never a player whose class is missing. */
  lemma NonAdminJogadorConfined(db: Db, p: Principal, req: Request)
    requires !IsAdmin(p)
    requires req.CreateJogadorReq? || req.UpdateJogadorReq? || req.DeleteJogadorReq?
    ensures Confined(p, db, Dispatch(db, p, req).db)
    ensures OrphansKept(db, Dispatch(db, p, req).db)
  {
    match req
    case CreateJogadorReq(nome, login, senha, turma, createdBy, salt, newId) =>
      NonAdminCreateJogadorConfined(db, p, nome, login, senha, turma, createdBy, salt, newId);
    case UpdateJogadorReq(id, login, senha, turma, nome, salt) =>
      NonAdminUpdateJogadorConfined(db, p, id, login, senha, turma, nome, salt);
    case DeleteJogadorReq(id) =>
      NonAdminDeleteJogadorConfined(db, p, id);
  }

  /** One request of a non-admin stays within the caller's own classes and
      their players; a player whose class is missing is left alone. */
  lemma NonAdminDispatchConfined(db: Db, p: Principal, req: Request)
    requires !IsAdmin(p)
    ensures Confined(p, db, Dispatch(db, p, req).db)
    ensures OrphansKept(db, Dispatch(db, p, req).db)
  {
    if req.AdminOnly() {
      AdminOnlyRoutesRefuseOthers(db, p, req);
    } else if req.CreateTurmaReq? || req.UpdateTurmaReq? || req.DeleteTurmaReq? {
      NonAdminTurmaConfined(db, p, req);
    } else {
      NonAdminJogadorConfined(db, p, req);
    }
  }

  /** Confinement composes: two confined steps make one confined step. */
  lemma ConfinedTransitive(p: Principal, a: Db, b: Db, c: Db)
    requires Confined(p, a, b) && Confined(p, b, c)
    ensures Confined(p, a, c)
  {
    forall j | j in a.jogadores && OthersClass(p, a.turmas, a.jogadores[j].turma)
      ensures j in c.jogadores && c.jogadores[j] == a.jogadores[j]
    {
      var t := a.jogadores[j].turma;
      assert b.turmas[t] == a.turmas[t];
      assert OthersClass(p, b.turmas, b.jogadores[j].turma);
    }
    forall t | t in c.turmas && (t in a.turmas ==> c.turmas[t] != a.turmas[t])
      ensures c.turmas[t].createdBy == p.id
    {
      if t in b.turmas && c.turmas[t] == b.turmas[t] {
        assert b.turmas[t].createdBy == p.id;
      }
    }
    forall j | j in c.jogadores && (j in a.jogadores ==> c.jogadores[j] != a.jogadores[j])
      ensures !OthersClass(p, a.turmas, c.jogadores[j].turma)
    {
      var t := c.jogadores[j].turma;
      if j in b.jogadores && c.jogadores[j] == b.jogadores[j] {
        assert !OthersClass(p, a.turmas, b.jogadores[j].turma);
      } else {
        assert OthersClass(p, a.turmas, t) ==> OthersClass(p, b.turmas, t);
      }
    }
  }

  /** However many requests a non-admin sends, no other user's class, no
      player in such a class, no user and no game changes. */
  lemma {:induction false} NonAdminRunConfined(db: Db, p: Principal, reqs: seq<Request>)
    requires !IsAdmin(p)
    ensures Confined(p, db, Run(db, p, reqs))
    decreases |reqs|
  {
    if reqs == [] {
      assert Run(db, p, reqs) == db;
    } else {
      var mid := Dispatch(db, p, reqs[0]).db;
      NonAdminDispatchConfined(db, p, reqs[0]);
      NonAdminRunConfined(mid, p, reqs[1..]);
      ConfinedTransitive(p, db, mid, Run(mid, p, reqs[1..]));
    }
  }

  // ---------------------------------------------------------------------
  // Classes

  /** Creating a class: a missing name or owner is a 400 and inserts
      nothing; otherwise the class is stored under the new id, owned by the
      caller when not an admin, and by `body.createdBy` (or the admin) when
      an admin. */
  lemma CreateTurmaOwnership(db: Db, p: Principal, nome: Field, createdBy: Field, newId: Id)
    ensures var s := CreateTurma(db, p, nome, createdBy, newId);
            && (!Truthy(nome) || OwnerOnCreate(p, createdBy) == "" <==> s == Step(db, BadRequest(MissingData)))
            && (s.out.Created? ==> && s.db == db.(turmas := db.turmas[newId := s.out.value])
                                   && newId !in db.turmas
                                   && s.out.value.nome_turma == nome.value
                                   && (!IsAdmin(p) ==> s.out.value.createdBy == p.id)
                                   && (IsAdmin(p) ==> s.out.value.createdBy == if Truthy(createdBy) then createdBy.value else p.id))
            && (Truthy(nome) && OwnerOnCreate(p, createdBy) != "" && newId !in db.turmas ==> s.out.Created?)
  {
  }

  /** Update and delete of a class: a missing class is a 404 whoever asks;
      a non-admin who does not own it gets 403 and nothing changes; a
      non-admin's update never reassigns the owner; a delete answers with
      the acknowledgement. */
  lemma TurmaGuardOrder(db: Db, p: Principal, id: Id, nome: Field, createdBy: Field)
    ensures id !in db.turmas ==>
              UpdateTurma(db, p, id, nome, createdBy) == Step(db, NotFound(NoSuchRecord))
              && DeleteTurma(db, p, id) == Step(db, NotFound(NoSuchRecord))
    ensures id in db.turmas && !IsAdmin(p) && (p.id == "" || db.turmas[id].createdBy != p.id) ==>
              UpdateTurma(db, p, id, nome, createdBy) == Step(db, Forbidden)
              && DeleteTurma(db, p, id) == Step(db, Forbidden)
    ensures !IsAdmin(p) && UpdateTurma(db, p, id, nome, createdBy).out.Ok? ==>
              UpdateTurma(db, p, id, nome, createdBy).out.value.createdBy == db.turmas[id].createdBy
    ensures DeleteTurma(db, p, id).out.Succeeded() ==>
              DeleteTurma(db, p, id) == Step(db.(turmas := db.turmas - {id}), Ok(Ack))
  {
  }

  // ---------------------------------------------------------------------
  // Players

  /** Player creation never stores anything: the document it builds has no
      `senha_visivel`, which the schema requires, so once the class checks
      pass the insert is rejected with 500. The document carries the
      lowercased login and only the hash of the password. */
  lemma CreateJogadorNeverStores(db: Db, p: Principal, nome: Field, login: Field, senha: Field, turma: Field,
                                 createdBy: Field, salt: string, newId: Id)
    ensures var s := CreateJogador(db, p, nome, login, senha, turma, createdBy, salt, newId);
            && s.db == db
            && !s.out.Succeeded()
            && ((Truthy(nome) && Truthy(login) && Truthy(senha) && Truthy(turma) && turma.value in db.turmas
                 && MayActOnTurma(p, db.turmas[turma.value])) <==> s.out == ServerError)
    ensures Truthy(nome) && Truthy(login) && Truthy(senha) && Truthy(turma) ==>
              var j := NewJogador(p, nome.value, login.value, senha.value, turma.value, createdBy, salt);
              && j.login == Lower(login.value)
              && j.senha_hash == Hash(senha.value, salt)
              && Verify(senha.value, j.senha_hash)
              && !JogadorConforms(j)
  {
    if Truthy(login) && Truthy(senha) {
      VerifyHash(senha.value, senha.value, salt);
    }
  }

  /** Player creation checks in order: missing fields (400), then the class
      exists (404), then the caller may act on it (403). */
  lemma CreateJogadorChecks(db: Db, p: Principal, nome: Field, login: Field, senha: Field, turma: Field,
                            createdBy: Field, salt: string, newId: Id)
    requires Truthy(nome) && Truthy(login) && Truthy(senha) && Truthy(turma)
    ensures turma.value !in db.turmas ==>
              CreateJogador(db, p, nome, login, senha, turma, createdBy, salt, newId) == Step(db, NotFound(NoSuchTurma))
    ensures turma.value in db.turmas && !IsAdmin(p) && db.turmas[turma.value].createdBy != p.id ==>
              CreateJogador(db, p, nome, login, senha, turma, createdBy, salt, newId) == Step(db, Forbidden)
  {
  }

  /** Update and delete of a player: a missing player is a 404 whoever asks;
      otherwise the guard goes through the player's class and never through
      the player's own `createdBy`. */
  lemma JogadorGuardOrder(db: Db, p: Principal, id: Id, login: Field, senha: Field, turma: Field, nome: Field,
                          salt: string, anyone: Id)
    ensures id !in db.jogadores ==>
              UpdateJogador(db, p, id, login, senha, turma, nome, salt) == Step(db, NotFound(NoSuchRecord))
              && DeleteJogador(db, p, id) == Step(db, NotFound(NoSuchRecord))
    ensures id in db.jogadores && !IsAdmin(p) && !OwnsClassOf(p, db, id) ==>
              UpdateJogador(db, p, id, login, senha, turma, nome, salt) == Step(db, Forbidden)
              && DeleteJogador(db, p, id) == Step(db, Forbidden)
    ensures id in db.jogadores ==>
              var other := db.(jogadores := db.jogadores[id := db.jogadores[id].(createdBy := anyone)]);
              UpdateJogador(other, p, id, login, senha, turma, nome, salt).out.Forbidden?
                == UpdateJogador(db, p, id, login, senha, turma, nome, salt).out.Forbidden?
  {
  }

  /** The class of player `id` exists and `p` (with a non-empty id) owns it. */
  predicate OwnsClassOf(p: Principal, db: Db, id: Id)
    requires id in db.jogadores
  {
    p.id != "" && db.jogadores[id].turma in db.turmas && db.turmas[db.jogadores[id].turma].createdBy == p.id
  }

  /** A successful player update: a reassigned class exists and passes the
      guard; the login is stored lowercased and a new password only as its
      hash; fields absent from the request keep their stored values. */
  lemma UpdateJogadorStores(db: Db, p: Principal, id: Id, login: Field, senha: Field, turma: Field, nome: Field,
                            salt: string)
    ensures var s := UpdateJogador(db, p, id, login, senha, turma, nome, salt);
            s.out.Ok? ==>
              && id in db.jogadores
              && s.db == db.(jogadores := db.jogadores[id := s.out.value])
              && (Truthy(turma) ==> turma.value in db.turmas && MayActOnTurma(p, db.turmas[turma.value])
                                     && s.out.value.turma == turma.value)
              && (!Truthy(turma) ==> s.out.value.turma == db.jogadores[id].turma)
              && (Truthy(login) ==> s.out.value.login == Lower(login.value))
              && (!Truthy(login) ==> s.out.value.login == db.jogadores[id].login)
              && (Truthy(senha) ==> Verify(senha.value, s.out.value.senha_hash))
              && (!Truthy(senha) ==> s.out.value.senha_hash == db.jogadores[id].senha_hash)
              && (Truthy(nome) ==> s.out.value.nome_jogador == nome.value)
              && (!Truthy(nome) ==> s.out.value.nome_jogador == db.jogadores[id].nome_jogador)
              && s.out.value.senha_visivel == db.jogadores[id].senha_visivel
              && s.out.value.createdBy == db.jogadores[id].createdBy
    ensures var s := UpdateJogador(db, p, id, login, senha, turma, nome, salt);
            id in db.jogadores && MayActOnJogador(p, db.turmas, db.jogadores[id]) && Truthy(turma) &&
            (turma.value !in db.turmas || !MayActOnTurma(p, db.turmas[turma.value])) ==>
              s.db == db && !s.out.Succeeded()
  {
    var s := UpdateJogador(db, p, id, login, senha, turma, nome, salt);
    if s.out.Ok? && Truthy(senha) {
      VerifyHash(senha.value, senha.value, salt);
    }
  }

  /** Updating only the name of a player leaves its login, password hash and
      class as they were. */
  lemma RenameJogadorOnly(db: Db, p: Principal, id: Id, nome: Field, salt: string)
    ensures var s := UpdateJogador(db, p, id, None, None, None, nome, salt);
            s.out.Ok? ==>
              && s.out.value.login == db.jogadores[id].login
              && s.out.value.senha_hash == db.jogadores[id].senha_hash
              && s.out.value.turma == db.jogadores[id].turma
              && s.out.value.nome_jogador == (if Truthy(nome) then nome.value else db.jogadores[id].nome_jogador)
  {
  }

  // ---------------------------------------------------------------------
  // Partial updates

  /** A request whose fields are each absent or empty, in any mix, changes
      no stored field, on any of the four collections, provided the user
      update carries no `perfil` at all (see `EmptyPerfilClearsRoles`). */
  lemma EmptyPatchKeepsRecord(u: Usuario, g: Jogo, t: Turma, j: Jogador, p: Principal, salt: string,
                              f1: Field, f2: Field, f3: Field, f4: Field, f5: Field, f6: Field)
    requires !Truthy(f1) && !Truthy(f2) && !Truthy(f3) && !Truthy(f4) && !Truthy(f5) && !Truthy(f6)
    ensures PatchUsuario(u, f1, f2, f3, f4, Undefined, salt) == u
    ensures PatchJogo(g, f1, f2, f3, f4, f5, f6, None) == g
    ensures PatchTurma(t, p, f1, f2) == t
    ensures PatchJogador(j, f1, f2, f3, f4, salt) == j
  {
  }

  /** A successful user update stores the patched user under its id, and
      field by field: a truthy field is taken from the request (the e-mail
      lowercased, the password only as a hash that accepts it), an absent or
      empty one keeps its stored value, whatever the other fields hold; the
      role list is replaced exactly when the request carries a role. */
  lemma UpdateUsuarioFields(db: Db, p: Principal, id: Id, nome: Field, email: Field, senha: Field,
                            instituicao: Field, perfil: JsVal, salt: string)
    ensures var s := UpdateUsuario(db, p, id, nome, email, senha, instituicao, perfil, salt);
            s.out.Ok? ==>
              && IsAdmin(p) && id in db.usuarios
              && s.db == db.(usuarios := db.usuarios[id := s.out.value])
              && var was, u := db.usuarios[id], s.out.value;
              && (Truthy(nome) ==> u.nome_usuario == nome.value)
              && (!Truthy(nome) ==> u.nome_usuario == was.nome_usuario)
              && (Truthy(email) ==> u.email_usuario == Lower(email.value))
              && (!Truthy(email) ==> u.email_usuario == was.email_usuario)
              && (Truthy(senha) ==> Verify(senha.value, u.senha_hash))
              && (!Truthy(senha) ==> u.senha_hash == was.senha_hash)
              && (Truthy(instituicao) ==> u.instituicao_usuario == instituicao.value)
              && (!Truthy(instituicao) ==> u.instituicao_usuario == was.instituicao_usuario)
              && (!perfil.Undefined? ==> u.perfil == PerfilArray(perfil))
              && (perfil.Undefined? ==> u.perfil == was.perfil)
  {
    var s := UpdateUsuario(db, p, id, nome, email, senha, instituicao, perfil, salt);
    if s.out.Ok? && Truthy(senha) {
      VerifyHash(senha.value, senha.value, salt);
    }
  }

  /** The user update replaces the role list whenever `perfil` is not
      undefined: an empty string, null or any other non-array, non-string
      value stores the empty list, so an admin user sent such a `perfil`
      loses the admin role. */
  lemma EmptyPerfilClearsRoles(db: Db, p: Principal, id: Id, nome: Field, email: Field, senha: Field,
                               instituicao: Field, perfil: JsVal, salt: string)
    requires perfil == Str("") || perfil.Null? || perfil.Other?
    ensures var s := UpdateUsuario(db, p, id, nome, email, senha, instituicao, perfil, salt);
            s.out.Ok? ==>
              && id in s.db.usuarios
              && s.db.usuarios[id].perfil == []
              && !IsAdminPerfil(Arr(s.db.usuarios[id].perfil))
    ensures IsAdmin(p) && id in db.usuarios && db.usuarios[id].perfil != [] ==>
              var s := UpdateUsuario(db, p, id, nome, email, senha, instituicao, perfil, salt);
              s.out.Ok? || s == Step(db, ServerError)
  {
    assert PerfilArray(perfil) == [];
    assert !Roles.Some([], CountsAsAdmin);
  }

  /** A successful game update stores the patched game under its id, and
      field by field: a truthy field is taken from the request and an absent
      or empty one keeps its stored value; an uploaded file replaces the
      icon; the owner never changes. */
  lemma UpdateJogoFields(db: Db, p: Principal, id: Id, nome: Field, descricao: Field, identificacao: Field,
                         link: Field, totalNiveis: Field, xpMaxima: Field, upload: Field)
    ensures var s := UpdateJogo(db, p, id, nome, descricao, identificacao, link, totalNiveis, xpMaxima, upload);
            s.out.Ok? ==>
              && IsAdmin(p) && id in db.jogos
              && s.db == db.(jogos := db.jogos[id := s.out.value])
              && var was, g := db.jogos[id], s.out.value;
              && (Truthy(nome) ==> g.nome == nome.value)
              && (!Truthy(nome) ==> g.nome == was.nome)
              && (Truthy(descricao) ==> g.descricao == descricao)
              && (!Truthy(descricao) ==> g.descricao == was.descricao)
              && (Truthy(identificacao) ==> g.identificacao_unity == identificacao.value)
              && (!Truthy(identificacao) ==> g.identificacao_unity == was.identificacao_unity)
              && (Truthy(link) ==> g.link_jogar == link)
              && (!Truthy(link) ==> g.link_jogar == was.link_jogar)
              && (Truthy(totalNiveis) ==> g.total_niveis == totalNiveis)
              && (!Truthy(totalNiveis) ==> g.total_niveis == was.total_niveis)
              && (Truthy(xpMaxima) ==> g.xp_maxima == xpMaxima)
              && (!Truthy(xpMaxima) ==> g.xp_maxima == was.xp_maxima)
              && (upload.Some? ==> g.icone_url == Some("/uploads/" + upload.value))
              && (upload.None? ==> g.icone_url == was.icone_url)
              && g.createdBy == was.createdBy
  {
  }

  /** A successful class update stores the patched class under its id: a
      truthy name replaces the stored one, an absent or empty one keeps it;
      the owner changes only when an admin sends a truthy `createdBy`. */
  lemma UpdateTurmaFields(db: Db, p: Principal, id: Id, nome: Field, createdBy: Field)
    ensures var s := UpdateTurma(db, p, id, nome, createdBy);
            s.out.Ok? ==>
              && id in db.turmas && MayActOnTurma(p, db.turmas[id])
              && s.db == db.(turmas := db.turmas[id := s.out.value])
              && var was, t := db.turmas[id], s.out.value;
              && (Truthy(nome) ==> t.nome_turma == nome.value)
              && (!Truthy(nome) ==> t.nome_turma == was.nome_turma)
              && (IsAdmin(p) && Truthy(createdBy) ==> t.createdBy == createdBy.value)
              && (!IsAdmin(p) || !Truthy(createdBy) ==> t.createdBy == was.createdBy)
  {
  }

  // ---------------------------------------------------------------------
  // Users

  /** Creating a user: a non-admin gets 403 and a missing field 400, both
      without a write; a created user is stored under the new id with the
      e-mail lowercased, the password only as a hash that accepts it, and
      the role list built from `perfil`; with the fields present, an e-mail
      no user has and an unused id, the user is created. */
  lemma CreateUsuarioStores(db: Db, p: Principal, nome: Field, email: Field, senha: Field, instituicao: Field,
                            perfil: JsVal, salt: string, newId: Id)
    ensures var s := CreateUsuario(db, p, nome, email, senha, instituicao, perfil, salt, newId);
            && (!IsAdmin(p) ==> s == Step(db, Forbidden))
            && (IsAdmin(p) && (!Truthy(nome) || !Truthy(email) || !Truthy(senha) || !Truthy(instituicao)) ==>
                  s == Step(db, BadRequest(MissingUserFields)))
            && (s.out.Created? ==>
                  && IsAdmin(p) && newId !in db.usuarios
                  && s.db == db.(usuarios := db.usuarios[newId := s.out.value])
                  && s.out.value.nome_usuario == nome.value
                  && s.out.value.email_usuario == Lower(email.value)
                  && Verify(senha.value, s.out.value.senha_hash)
                  && s.out.value.instituicao_usuario == instituicao.value
                  && s.out.value.perfil == PerfilArray(perfil))
            && ((&& IsAdmin(p) && Truthy(nome) && Truthy(email) && Truthy(senha) && Truthy(instituicao)
                 && !EmailRegistered(db.usuarios, Lower(email.value)) && newId !in db.usuarios)
                ==> s.out.Created?)
  {
    var s := CreateUsuario(db, p, nome, email, senha, instituicao, perfil, salt, newId);
    if s.out.Created? {
      VerifyHash(senha.value, senha.value, salt);
    }
  }

  /** The two paths to a duplicate e-mail differ: creating a user with a
      registered e-mail is a 400 from the handler's own lookup, while
      changing a user's e-mail to another user's reaches the unique index
      and is a 500. Neither writes anything. */
  lemma DuplicateEmail(db: Db, p: Principal, id: Id, other: Id, nome: Field, email: Field, senha: Field,
                       instituicao: Field, perfil: JsVal, salt: string, newId: Id)
    requires IsAdmin(p) && Truthy(email)
    requires other in db.usuarios && db.usuarios[other].email_usuario == Lower(email.value)
    ensures Truthy(nome) && Truthy(senha) && Truthy(instituicao) ==>
              CreateUsuario(db, p, nome, email, senha, instituicao, perfil, salt, newId) == Step(db, BadRequest(EmailTaken))
    ensures id in db.usuarios && id != other ==>
              UpdateUsuario(db, p, id, nome, email, senha, instituicao, perfil, salt) == Step(db, ServerError)
  {
    assert EmailRegistered(db.usuarios, Lower(email.value));
  }

  // ---------------------------------------------------------------------
  // Games

  /** Creating a game: a non-admin gets 403 and a missing name or Unity id
      400, both without a write; a created game is stored under the new id
      with the name, Unity id, description and owner as sent, the link and
      the numeric fields only when truthy, and the icon only when a file
      was uploaded; with both required fields and an unused id, the game
      is created. */
  lemma CreateJogoStores(db: Db, p: Principal, nome: Field, descricao: Field, identificacao: Field, link: Field,
                         totalNiveis: Field, xpMaxima: Field, createdBy: Field, upload: Field, newId: Id)
    ensures var s := CreateJogo(db, p, nome, descricao, identificacao, link, totalNiveis, xpMaxima, createdBy, upload, newId);
            && (!IsAdmin(p) ==> s == Step(db, Forbidden))
            && (IsAdmin(p) && (!Truthy(nome) || !Truthy(identificacao)) ==> s == Step(db, BadRequest(MissingGameFields)))
            && (s.out.Created? ==>
                  && IsAdmin(p) && newId !in db.jogos
                  && s.db == db.(jogos := db.jogos[newId := s.out.value])
                  && var g := s.out.value;
                  && g.nome == nome.value
                  && g.identificacao_unity == identificacao.value
                  && g.descricao == descricao
                  && g.createdBy == createdBy
                  && (Truthy(link) ==> g.link_jogar == link) && (!Truthy(link) ==> g.link_jogar.None?)
                  && (Truthy(totalNiveis) ==> g.total_niveis == totalNiveis) && (!Truthy(totalNiveis) ==> g.total_niveis.None?)
                  && (Truthy(xpMaxima) ==> g.xp_maxima == xpMaxima) && (!Truthy(xpMaxima) ==> g.xp_maxima.None?)
                  && (upload.Some? ==> g.icone_url == Some("/uploads/" + upload.value))
                  && (upload.None? ==> g.icone_url.None?))
            && (IsAdmin(p) && Truthy(nome) && Truthy(identificacao) && newId !in db.jogos ==> s.out.Created?)
  {
  }

  /** A one-element role array is admin exactly when its element counts. */
  lemma SingletonAdmin(v: JsVal)
    ensures IsAdminPerfil(Arr([v])) <==> CountsAsAdmin(v)
  {
    SomeIff([v], CountsAsAdmin);
    assert [v][0] == v;
  }

  /** For an array role, the stored list is admin exactly when the first
      element counts, and then the array itself is admin. */
  lemma StoredArrayPerfilAdmin(items: seq<JsVal>)
    ensures IsAdminPerfil(Arr(PerfilArray(Arr(items)))) <==> items != [] && CountsAsAdmin(items[0])
    ensures IsAdminPerfil(Arr(PerfilArray(Arr(items)))) ==> IsAdminPerfil(Arr(items))
  {
    var r := PerfilArray(Arr(items));
    if items == [] {
      assert r == [];
    } else {
      assert r == [items[0]];
      SingletonAdmin(items[0]);
      ArrayAdminIff(items);
    }
  }

  /** For a string role, the stored list is admin exactly when the string
      is. */
  lemma StoredStringPerfilAdmin(s: string)
    ensures IsAdminPerfil(Arr(PerfilArray(Str(s)))) <==> IsAdminPerfil(Str(s))
  {
    CountsAsAdminIff(Str(s));
    if s == "" {
      assert PerfilArray(Str(s)) == [];
      assert Trim(s) == "";
      assert Lower("") == "";
    } else {
      assert PerfilArray(Str(s)) == [Str(s)];
      SingletonAdmin(Str(s));
    }
  }

  /** The stored role list keeps admin rights only through its first
      element: it is an admin list exactly when the request's role is an
      admin string, or an array whose first element is one. An array whose
      admin marker comes later is stored without it. */
  lemma StoredPerfilAdmin(perfil: JsVal)
    ensures IsAdminPerfil(Arr(PerfilArray(perfil))) <==>
              || (perfil.Str? && IsAdminPerfil(perfil))
              || (perfil.Arr? && perfil.items != [] && CountsAsAdmin(perfil.items[0]))
    ensures IsAdminPerfil(Arr(PerfilArray(perfil))) ==> IsAdminPerfil(perfil)
  {
    match perfil
    case Arr(items) => StoredArrayPerfilAdmin(items);
    case Str(s) => StoredStringPerfilAdmin(s);
    case _ =>
      assert PerfilArray(perfil) == [];
  }

  /** `["aluno", "admin"]` is an admin role, but the list stored for it is
      not. */
  lemma LaterMarkerDropped()
    ensures IsAdminPerfil(Arr([Str("aluno"), Str("admin")]))
    ensures !IsAdminPerfil(Arr(PerfilArray(Arr([Str("aluno"), Str("admin")]))))
  {
    TrimUnpadded("admin");
    assert Lower("admin") == "admin";
    TrimUnpadded("aluno");
    assert Lower("aluno") == "aluno";
    assert [Str("aluno"), Str("admin")][1..] == [Str("admin")];
    SingletonAdmin(Str("admin"));
    assert PerfilArray(Arr([Str("aluno"), Str("admin")])) == [Str("aluno")];
    SingletonAdmin(Str("aluno"));
  }

  // ---------------------------------------------------------------------
  // A session of requests

  /** The database of the sample session after the admin's class. */
  function SessionDb1(admin: Principal): Db {
    Db(map[], map[], map["c1" := Turma("Turma 1", admin.id)], map[])
  }

  /** The database of the sample session after the second user's class. */
  function SessionDb2(admin: Principal, u2: Principal): Db {
    Db(map[], map[], map["c1" := Turma("Turma 1", admin.id), "c2" := Turma("Turma 2", u2.id)], map[])
  }

  /** The class steps of the sample session. */
  lemma SessionClasses(admin: Principal, u2: Principal)
    requires IsAdmin(admin) && !IsAdmin(u2)
    requires admin.id != "" && u2.id != "" && u2.id != admin.id
    ensures CreateTurma(Db(map[], map[], map[], map[]), admin, Some("Turma 1"), None, "c1")
            == Step(SessionDb1(admin), Created(Turma("Turma 1", admin.id)))
    ensures DeleteTurma(SessionDb1(admin), u2, "c1") == Step(SessionDb1(admin), Forbidden)
    ensures CreateTurma(SessionDb1(admin), u2, Some("Turma 2"), Some(admin.id), "c2")
            == Step(SessionDb2(admin, u2), Created(Turma("Turma 2", u2.id)))
  {
  }

  /** The player and list steps of the sample session. */
  lemma SessionPlayers(admin: Principal, u2: Principal, u3: Principal, salt: string)
    requires IsAdmin(admin) && !IsAdmin(u2) && !IsAdmin(u3)
    requires admin.id != "" && u2.id != "" && u3.id != "" && u2.id != admin.id && u3.id != u2.id && u3.id != admin.id
    ensures CreateJogador(SessionDb2(admin, u2), u2, Some("Ana"), Some("ANA"), Some("segredo"), Some("c1"), None, salt, "j1")
            == Step(SessionDb2(admin, u2), Forbidden)
    ensures CreateJogador(SessionDb2(admin, u2), u2, Some("Ana"), Some("ANA"), Some("segredo"), Some("c2"), None, salt, "j1")
            == Step(SessionDb2(admin, u2), ServerError)
    ensures ListJogadores(SessionDb2(admin, u2), admin, None) == Ok(map[])
    ensures ListJogadores(SessionDb2(admin, u2), u2, None) == Ok(map[])
    ensures ListTurmas(SessionDb2(admin, u2), u3) == Ok(map[])
    ensures ListJogadores(SessionDb2(admin, u2), u3, None) == Ok(map[])
    ensures DeleteTurma(SessionDb2(admin, u2), u2, "c2") == Step(SessionDb1(admin), Ok(Ack))
  {
    var db := SessionDb2(admin, u2);
    assert OwnedTurmaIds(u3, db.turmas) == {};
    assert db.turmas - {"c2"} == SessionDb1(admin).turmas;
  }

  /** An admin creates a class; another user may not delete it, creates a
      class of their own whatever owner they name, cannot create a player
      in the admin's class (403), and sees the player create in their own
      class fail with 500; both player lists stay empty; a third user sees
      no class and no player; the second user then deletes their class. */
  lemma Session(admin: Principal, u2: Principal, u3: Principal, salt: string)
    requires IsAdmin(admin) && !IsAdmin(u2) && !IsAdmin(u3)
    requires admin.id != "" && u2.id != "" && u3.id != "" && u2.id != admin.id && u3.id != u2.id && u3.id != admin.id
    ensures var db0 := Db(map[], map[], map[], map[]);
            var s1 := CreateTurma(db0, admin, Some("Turma 1"), None, "c1");
            var s2 := DeleteTurma(s1.db, u2, "c1");
            var s3 := CreateTurma(s2.db, u2, Some("Turma 2"), Some(admin.id), "c2");
            var s4 := CreateJogador(s3.db, u2, Some("Ana"), Some("ANA"), Some("segredo"), Some("c1"), None, salt, "j1");
            var s5 := CreateJogador(s4.db, u2, Some("Ana"), Some("ANA"), Some("segredo"), Some("c2"), None, salt, "j1");
            var s6 := DeleteTurma(s5.db, u2, "c2");
            && s1.out == Created(Turma("Turma 1", admin.id))
            && s2 == Step(s1.db, Forbidden)
            && s3.out == Created(Turma("Turma 2", u2.id))
            && s4 == Step(s3.db, Forbidden)
            && s5 == Step(s4.db, ServerError)
            && ListJogadores(s5.db, admin, None) == Ok(map[])
            && ListJogadores(s5.db, u2, None) == Ok(map[])
            && ListTurmas(s5.db, u3) == Ok(map[])
            && ListJogadores(s5.db, u3, None) == Ok(map[])
            && s6 == Step(s1.db, Ok(Ack))
  {
    SessionClasses(admin, u2);
    SessionPlayers(admin, u2, u3, salt);
  }
}
