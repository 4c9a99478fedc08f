/** The document store and the REST handlers that act on it. Each handler
    takes the session principal and the request fields, checks them in the
    order the route does, overwrites the fetched document field by field and
    then saves, inserts or deletes. Each is proved to compute the matching
    function of `Routes`. */
module App {
  import opened Roles
  import opened Records
  import opened Guard
  import opened Routes

  class Store {
    var usuarios: map<Id, Usuario>
    var jogos: map<Id, Jogo>
    var turmas: map<Id, Turma>
    var jogadores: map<Id, Jogador>

    /** The unique indexes hold and every stored document fits its schema. */
    ghost predicate Valid()
      reads this
    {
      Consistent(Snapshot())
    }

    /** The four collections as a value. */
    function Snapshot(): Db
      reads this
    {
      Db(usuarios, jogos, turmas, jogadores)
    }

    constructor ()
      ensures Valid()
      ensures Snapshot() == Db(map[], map[], map[], map[])
    {
      usuarios, jogos, turmas, jogadores := map[], map[], map[], map[];
    }

    // -------------------------------------------------------------------
    // Document-layer writes

    method SaveUsuario(id: Id, u: Usuario) returns (saved: bool)
      modifies this
      ensures saved == Routes.SaveUsuario(old(Snapshot()), id, u).Some?
      ensures Snapshot() == if saved then Routes.SaveUsuario(old(Snapshot()), id, u).value else old(Snapshot())
    {
      if !UsuarioConforms(u) || exists k :: k in usuarios && k != id && usuarios[k].email_usuario == u.email_usuario {
        return false;
      }
      usuarios := usuarios[id := u];
      saved := true;
    }

    method InsertUsuario(id: Id, u: Usuario) returns (inserted: bool)
      modifies this
      ensures inserted == Routes.InsertUsuario(old(Snapshot()), id, u).Some?
      ensures Snapshot() == if inserted then Routes.InsertUsuario(old(Snapshot()), id, u).value else old(Snapshot())
    {
      if id in usuarios {
        return false;
      }
      inserted := SaveUsuario(id, u);
    }

    method SaveJogo(id: Id, j: Jogo) returns (saved: bool)
      modifies this
      ensures saved == Routes.SaveJogo(old(Snapshot()), id, j).Some?
      ensures Snapshot() == if saved then Routes.SaveJogo(old(Snapshot()), id, j).value else old(Snapshot())
    {
      if !JogoConforms(j) {
        return false;
      }
      jogos := jogos[id := j];
      saved := true;
    }

    method InsertJogo(id: Id, j: Jogo) returns (inserted: bool)
      modifies this
      ensures inserted == Routes.InsertJogo(old(Snapshot()), id, j).Some?
      ensures Snapshot() == if inserted then Routes.InsertJogo(old(Snapshot()), id, j).value else old(Snapshot())
    {
      if id in jogos {
        return false;
      }
      inserted := SaveJogo(id, j);
    }

    method SaveTurma(id: Id, t: Turma) returns (saved: bool)
      modifies this
      ensures saved == Routes.SaveTurma(old(Snapshot()), id, t).Some?
      ensures Snapshot() == if saved then Routes.SaveTurma(old(Snapshot()), id, t).value else old(Snapshot())
    {
      if !TurmaConforms(t) {
        return false;
      }
      turmas := turmas[id := t];
      saved := true;
    }

    method InsertTurma(id: Id, t: Turma) returns (inserted: bool)
      modifies this
      ensures inserted == Routes.InsertTurma(old(Snapshot()), id, t).Some?
      ensures Snapshot() == if inserted then Routes.InsertTurma(old(Snapshot()), id, t).value else old(Snapshot())
    {
      if id in turmas {
        return false;
      }
      inserted := SaveTurma(id, t);
    }

    method SaveJogador(id: Id, j: Jogador) returns (saved: bool)
      modifies this
      ensures saved == Routes.SaveJogador(old(Snapshot()), id, j).Some?
      ensures Snapshot() == if saved then Routes.SaveJogador(old(Snapshot()), id, j).value else old(Snapshot())
    {
      if !JogadorConforms(j) || exists k :: k in jogadores && k != id && jogadores[k].login == j.login {
        return false;
      }
      jogadores := jogadores[id := j];
      saved := true;
    }

    method InsertJogador(id: Id, j: Jogador) returns (inserted: bool)
      modifies this
      ensures inserted == Routes.InsertJogador(old(Snapshot()), id, j).Some?
      ensures Snapshot() == if inserted then Routes.InsertJogador(old(Snapshot()), id, j).value else old(Snapshot())
    {
      if id in jogadores {
        return false;
      }
      inserted := SaveJogador(id, j);
    }

    /** `Usuario.findOne({ email_usuario: email })`. */
    method FindUsuarioByEmail(email: string) returns (found: Option<Id>)
      ensures found.Some? ==> found.value in usuarios && usuarios[found.value].email_usuario == email
      ensures found.None? <==> !EmailRegistered(usuarios, email)
    {
      if exists k :: k in usuarios && usuarios[k].email_usuario == email {
        var k :| k in usuarios && usuarios[k].email_usuario == email;
        found := Some(k);
      } else {
        found := None;
      }
    }

    // -------------------------------------------------------------------
    // POST /login: the credential checks (the session write is left out)

    /** Looks the user up by lowercased e-mail and checks the password; on
        success returns the principal the session would hold. */
    method Login(email: Field, username: Field, password: Field, senha: Field) returns (r: Outcome<Principal>)
      requires Valid()
      ensures r.Ok? || r == BadRequest(MissingCredentials) || r == Unauthorized(BadCredentials)
      ensures r.BadRequest? <==> LoginKey(email, username) == "" || !Truthy(LoginSecret(password, senha))
      ensures r.Ok? <==> !r.BadRequest? && exists k :: k in usuarios && usuarios[k].email_usuario == LoginKey(email, username)
                                                   && Verify(LoginSecret(password, senha).value, usuarios[k].senha_hash)
      ensures r.Ok? ==> && r.value.id in usuarios
                        && usuarios[r.value.id].email_usuario == LoginKey(email, username)
                        && Verify(LoginSecret(password, senha).value, usuarios[r.value.id].senha_hash)
                        && r.value.perfil == Arr(usuarios[r.value.id].perfil)
    {
      var key := LoginKey(email, username);
      var secret := LoginSecret(password, senha);
      if key == "" || !Truthy(secret) {
        return BadRequest(MissingCredentials);
      }
      var found := FindUsuarioByEmail(key);
      if found.None? {
        return Unauthorized(BadCredentials);
      }
      var user := usuarios[found.value];
      if !Verify(secret.value, user.senha_hash) {
        return Unauthorized(BadCredentials);
      }
      r := Ok(Principal(found.value, Arr(user.perfil)));
    }

    // -------------------------------------------------------------------
    // /api/usuarios-instituicao (admin only)

    method CreateUsuario(p: Principal, nome: Field, email: Field, senha: Field, instituicao: Field,
                         perfil: JsVal, salt: string, newId: Id) returns (r: Outcome<Usuario>)
      requires Valid()
      modifies this
      ensures Valid()
      ensures Step(Snapshot(), r) == Routes.CreateUsuario(old(Snapshot()), p, nome, email, senha, instituicao, perfil, salt, newId)
    {
      if !IsAdmin(p) {
        return Forbidden;
      }
      if !Truthy(nome) || !Truthy(email) || !Truthy(senha) || !Truthy(instituicao) {
        return BadRequest(MissingUserFields);
      }
      var existing := FindUsuarioByEmail(Lower(email.value));
      if existing.Some? {
        return BadRequest(EmailTaken);
      }
      var hash := Hash(senha.value, salt);
      var perfilArr := PerfilArray(perfil);
      var novo := Usuario(nome.value, Lower(email.value), hash, instituicao.value, perfilArr);
      var inserted := InsertUsuario(newId, novo);
      r := if inserted then Created(novo) else ServerError;
      if inserted {
        SaveUsuarioConsistent(old(Snapshot()), newId, novo);
      }
    }

    method ListUsuarios(p: Principal) returns (r: Outcome<map<Id, Usuario>>)
      ensures r == Routes.ListUsuarios(Snapshot(), p)
    {
      if !IsAdmin(p) {
        return Forbidden;
      }
      r := Ok(usuarios);
    }

    method UpdateUsuario(p: Principal, id: Id, nome: Field, email: Field, senha: Field, instituicao: Field,
                         perfil: JsVal, salt: string) returns (r: Outcome<Usuario>)
      requires Valid()
      modifies this
      ensures Valid()
      ensures Step(Snapshot(), r) == Routes.UpdateUsuario(old(Snapshot()), p, id, nome, email, senha, instituicao, perfil, salt)
    {
      if !IsAdmin(p) {
        return Forbidden;
      }
      if id !in usuarios {
        return NotFound(NoSuchRecord);
      }
      var user := usuarios[id];
      if Truthy(nome) {
        user := user.(nome_usuario := nome.value);
      }
      if Truthy(email) {
        user := user.(email_usuario := Lower(email.value));
      }
      if Truthy(instituicao) {
        user := user.(instituicao_usuario := instituicao.value);
      }
      if !perfil.Undefined? {
        user := user.(perfil := PerfilArray(perfil));
      }
      if Truthy(senha) {
        user := user.(senha_hash := Hash(senha.value, salt));
      }
      assert user == PatchUsuario(old(usuarios)[id], nome, email, senha, instituicao, perfil, salt);
      assert Routes.UpdateUsuario(old(Snapshot()), p, id, nome, email, senha, instituicao, perfil, salt)
          == Commit(old(Snapshot()), Routes.SaveUsuario(old(Snapshot()), id, user), Ok(user));
      var saved := SaveUsuario(id, user);
      r := if saved then Ok(user) else ServerError;
      if saved {
        SaveUsuarioConsistent(old(Snapshot()), id, user);
      }
    }

    method DeleteUsuario(p: Principal, id: Id) returns (r: Outcome<Ack>)
      requires Valid()
      modifies this
      ensures Valid()
      ensures Step(Snapshot(), r) == Routes.DeleteUsuario(old(Snapshot()), p, id)
    {
      if !IsAdmin(p) {
        return Forbidden;
      }
      if id !in usuarios {
        return NotFound(NoSuchRecord);
      }
      usuarios := usuarios - {id};
      r := Ok(Ack);
    }

    // -------------------------------------------------------------------
    // /api/jogos (reads for every signed-in user, writes admin only)

    method CreateJogo(p: Principal, nome: Field, descricao: Field, identificacao: Field, link: Field,
                      totalNiveis: Field, xpMaxima: Field, createdBy: Field, upload: Field, newId: Id)
      returns (r: Outcome<Jogo>)
      requires Valid()
      modifies this
      ensures Valid()
      ensures Step(Snapshot(), r)
              == Routes.CreateJogo(old(Snapshot()), p, nome, descricao, identificacao, link, totalNiveis, xpMaxima, createdBy, upload, newId)
    {
      if !IsAdmin(p) {
        return Forbidden;
      }
      if !Truthy(nome) || !Truthy(identificacao) {
        return BadRequest(MissingGameFields);
      }
      var iconeUrl: Field := None;
      if upload.Some? {
        iconeUrl := Some("/uploads/" + upload.value);
      }
      var jogo := Jogo(nome.value, descricao, identificacao.value, None, iconeUrl, None, None, createdBy);
      if Truthy(link) {
        jogo := jogo.(link_jogar := link);
      }
      if Truthy(totalNiveis) {
        jogo := jogo.(total_niveis := totalNiveis);
      }
      if Truthy(xpMaxima) {
        jogo := jogo.(xp_maxima := xpMaxima);
      }
      assert jogo == Jogo(nome.value, descricao, identificacao.value, IfTruthy(link), IconUrl(upload),
                          IfTruthy(totalNiveis), IfTruthy(xpMaxima), createdBy);
      assert Routes.CreateJogo(old(Snapshot()), p, nome, descricao, identificacao, link, totalNiveis, xpMaxima, createdBy, upload, newId)
          == Commit(old(Snapshot()), Routes.InsertJogo(old(Snapshot()), newId, jogo), Created(jogo));
      var inserted := InsertJogo(newId, jogo);
      r := if inserted then Created(jogo) else ServerError;
      if inserted {
        SaveJogoConsistent(old(Snapshot()), newId, jogo);
      }
    }

    method ListJogos(p: Principal) returns (r: Outcome<map<Id, Jogo>>)
      ensures r == Routes.ListJogos(Snapshot(), p)
    {
      r := Ok(jogos);
    }

    method UpdateJogo(p: Principal, id: Id, nome: Field, descricao: Field, identificacao: Field, link: Field,
                      totalNiveis: Field, xpMaxima: Field, upload: Field) returns (r: Outcome<Jogo>)
      requires Valid()
      modifies this
      ensures Valid()
      ensures Step(Snapshot(), r)
              == Routes.UpdateJogo(old(Snapshot()), p, id, nome, descricao, identificacao, link, totalNiveis, xpMaxima, upload)
    {
      if !IsAdmin(p) {
        return Forbidden;
      }
      if id !in jogos {
        return NotFound(NoSuchRecord);
      }
      var stored := jogos[id];
      var nomeJogo, desc, unity, jogar := stored.nome, stored.descricao, stored.identificacao_unity, stored.link_jogar;
      var niveis, xp, icone := stored.total_niveis, stored.xp_maxima, stored.icone_url;
      if Truthy(nome) {
        nomeJogo := nome.value;
      }
      if Truthy(descricao) {
        desc := descricao;
      }
      if Truthy(identificacao) {
        unity := identificacao.value;
      }
      if Truthy(link) {
        jogar := link;
      }
      if Truthy(totalNiveis) {
        niveis := totalNiveis;
      }
      if Truthy(xpMaxima) {
        xp := xpMaxima;
      }
      if upload.Some? {
        icone := IconUrl(upload);
      }
      var jogo := Jogo(nomeJogo, desc, unity, jogar, icone, niveis, xp, stored.createdBy);
      assert jogo == PatchJogo(stored, nome, descricao, identificacao, link, totalNiveis, xpMaxima, upload);
      assert Routes.UpdateJogo(old(Snapshot()), p, id, nome, descricao, identificacao, link, totalNiveis, xpMaxima, upload)
          == Commit(old(Snapshot()), Routes.SaveJogo(old(Snapshot()), id, jogo), Ok(jogo));
      var saved := SaveJogo(id, jogo);
      r := if saved then Ok(jogo) else ServerError;
      if saved {
        SaveJogoConsistent(old(Snapshot()), id, jogo);
      }
    }

    method DeleteJogo(p: Principal, id: Id) returns (r: Outcome<Ack>)
      requires Valid()
      modifies this
      ensures Valid()
      ensures Step(Snapshot(), r) == Routes.DeleteJogo(old(Snapshot()), p, id)
    {
      if !IsAdmin(p) {
        return Forbidden;
      }
      if id !in jogos {
        return NotFound(NoSuchRecord);
      }
      jogos := jogos - {id};
      r := Ok(Ack);
    }

    // -------------------------------------------------------------------
    // /api/turmas (scoped by owner)

    method CreateTurma(p: Principal, nome: Field, createdBy: Field, newId: Id) returns (r: Outcome<Turma>)
      requires Valid()
      modifies this
      ensures Valid()
      ensures Step(Snapshot(), r) == Routes.CreateTurma(old(Snapshot()), p, nome, createdBy, newId)
    {
      var userId := GetUserId(p);
      var owner := if IsAdmin(p) then (if Truthy(createdBy) then createdBy.value else userId) else userId;
      if !Truthy(nome) || owner == "" {
        return BadRequest(MissingData);
      }
      var turma := Turma(nome.value, owner);
      var inserted := InsertTurma(newId, turma);
      r := if inserted then Created(turma) else ServerError;
    }

    method ListTurmas(p: Principal) returns (r: Outcome<map<Id, Turma>>)
      ensures r == Routes.ListTurmas(Snapshot(), p)
    {
      var userId := GetUserId(p);
      if IsAdmin(p) {
        return Ok(turmas);
      }
      var owned := set t | t in turmas && turmas[t].createdBy == userId;
      r := Ok(map t | t in owned :: turmas[t]);
    }

    method UpdateTurma(p: Principal, id: Id, nome: Field, createdBy: Field) returns (r: Outcome<Turma>)
      requires Valid()
      modifies this
      ensures Valid()
      ensures Step(Snapshot(), r) == Routes.UpdateTurma(old(Snapshot()), p, id, nome, createdBy)
    {
      var userId := GetUserId(p);
      var isAdmin := IsAdmin(p);
      if id !in turmas {
        return NotFound(NoSuchRecord);
      }
      var turma := turmas[id];
      if !isAdmin && !IsOwner(Some(turma.createdBy), userId) {
        return Forbidden;
      }
      if Truthy(nome) {
        turma := turma.(nome_turma := nome.value);
      }
      if isAdmin && Truthy(createdBy) {
        turma := turma.(createdBy := createdBy.value);
      }
      var saved := SaveTurma(id, turma);
      r := if saved then Ok(turma) else ServerError;
    }

    method DeleteTurma(p: Principal, id: Id) returns (r: Outcome<Ack>)
      requires Valid()
      modifies this
      ensures Valid()
      ensures Step(Snapshot(), r) == Routes.DeleteTurma(old(Snapshot()), p, id)
    {
      var userId := GetUserId(p);
      var isAdmin := IsAdmin(p);
      if id !in turmas {
        return NotFound(NoSuchRecord);
      }
      if !isAdmin && !IsOwner(Some(turmas[id].createdBy), userId) {
        return Forbidden;
      }
      turmas := turmas - {id};
      r := Ok(Ack);
    }

    // -------------------------------------------------------------------
    // /api/jogadores (scoped by the owner of the player's class)

    method CreateJogador(p: Principal, nome: Field, login: Field, senha: Field, turma: Field,
                         createdBy: Field, salt: string, newId: Id) returns (r: Outcome<Jogador>)
      requires Valid()
      modifies this
      ensures Valid()
      ensures Step(Snapshot(), r) == Routes.CreateJogador(old(Snapshot()), p, nome, login, senha, turma, createdBy, salt, newId)
    {
      var userId := GetUserId(p);
      var isAdmin := IsAdmin(p);
      if !Truthy(nome) || !Truthy(login) || !Truthy(senha) || !Truthy(turma) {
        return BadRequest(MissingData);
      }
      if turma.value !in turmas {
        return NotFound(NoSuchTurma);
      }
      var turmaDoc := turmas[turma.value];
      if !isAdmin && !IsOwner(Some(turmaDoc.createdBy), userId) {
        return Forbidden;
      }
      var jogadorData := Jogador(Lower(login.value), Hash(senha.value, salt), None, nome.value, turma.value,
                                 if isAdmin then (if Truthy(createdBy) then createdBy.value else userId) else userId);
      var inserted := InsertJogador(newId, jogadorData);
      r := if inserted then Created(jogadorData) else ServerError;
    }

    method ListJogadores(p: Principal, turma: Field) returns (r: Outcome<map<Id, Jogador>>)
      ensures r == Routes.ListJogadores(Snapshot(), p, turma)
    {
      var userId := GetUserId(p);
      if IsAdmin(p) {
        if Truthy(turma) {
          return Ok(map j | j in jogadores && jogadores[j].turma == turma.value :: jogadores[j]);
        }
        return Ok(jogadores);
      }
      var turmaIds := set t | t in turmas && turmas[t].createdBy == userId;
      if turmaIds == {} {
        return Ok(map[]);
      }
      r := Ok(map j | j in jogadores && jogadores[j].turma in turmaIds :: jogadores[j]);
    }

    method UpdateJogador(p: Principal, id: Id, login: Field, senha: Field, turma: Field, nome: Field, salt: string)
      returns (r: Outcome<Jogador>)
      requires Valid()
      modifies this
      ensures Valid()
      ensures Step(Snapshot(), r) == Routes.UpdateJogador(old(Snapshot()), p, id, login, senha, turma, nome, salt)
    {
      var userId := GetUserId(p);
      var isAdmin := IsAdmin(p);
      if id !in jogadores {
        return NotFound(NoSuchRecord);
      }
      var jogador := jogadores[id];
      var classOwner := if jogador.turma in turmas then Some(turmas[jogador.turma].createdBy) else None;
      if !isAdmin && !IsOwner(classOwner, userId) {
        return Forbidden;
      }
      if Truthy(login) {
        jogador := jogador.(login := Lower(login.value));
      }
      if Truthy(nome) {
        jogador := jogador.(nome_jogador := nome.value);
      }
      if Truthy(turma) {
        if turma.value !in turmas {
          return NotFound(NoSuchTurma);
        }
        if !isAdmin && !IsOwner(Some(turmas[turma.value].createdBy), userId) {
          return Forbidden;
        }
        jogador := jogador.(turma := turma.value);
      }
      if Truthy(senha) {
        jogador := jogador.(senha_hash := Hash(senha.value, salt));
      }
      assert jogador == PatchJogador(old(jogadores)[id], login, nome, turma, senha, salt);
      assert Routes.UpdateJogador(old(Snapshot()), p, id, login, senha, turma, nome, salt)
          == Commit(old(Snapshot()), Routes.SaveJogador(old(Snapshot()), id, jogador), Ok(jogador));
      var saved := SaveJogador(id, jogador);
      r := if saved then Ok(jogador) else ServerError;
      if saved {
        SaveJogadorConsistent(old(Snapshot()), id, jogador);
      }
    }

    method DeleteJogador(p: Principal, id: Id) returns (r: Outcome<Ack>)
      requires Valid()
      modifies this
      ensures Valid()
      ensures Step(Snapshot(), r) == Routes.DeleteJogador(old(Snapshot()), p, id)
    {
      var userId := GetUserId(p);
      var isAdmin := IsAdmin(p);
      if id !in jogadores {
        return NotFound(NoSuchRecord);
      }
      var classOwner := if jogadores[id].turma in turmas then Some(turmas[jogadores[id].turma].createdBy) else None;
      if !isAdmin && !IsOwner(classOwner, userId) {
        return Forbidden;
      }
      jogadores := jogadores - {id};
      r := Ok(Ack);
    }
  }
}
