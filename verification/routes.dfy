/** What each REST handler does, as a function from the database before the
    request to the database after it and the response. The handler methods of
    `App.Store` are proved to compute exactly these functions. */
module Routes {
  import opened Roles
  import opened Records
  import opened Guard

  /** The four collections. */
  datatype Db = Db(
    usuarios: map<Id, Usuario>,
    jogos: map<Id, Jogo>,
    turmas: map<Id, Turma>,
    jogadores: map<Id, Jogador>)

  /** The `{ ok: true }` body of a successful delete. */
  datatype Ack = Ack

  /** The responses a handler sends. */
  datatype Outcome<+T> =
    | Ok(value: T)                // 200
    | Created(value: T)           // 201
    | BadRequest(msg: string)     // 400
    | Unauthorized(msg: string)   // 401
    | Forbidden                   // 403, "Acesso negado"
    | NotFound(msg: string)       // 404
    | ServerError                 // 500
  {
    predicate Succeeded() {
      Ok? || Created?
    }
  }

  /** The database after a request, and the response. */
  datatype Step<+T> = Step(db: Db, out: Outcome<T>)

  const MissingUserFields := "Campos obrigatórios ausentes"
  const EmailTaken := "E-mail já cadastrado"
  const MissingGameFields := "Nome e identificação são obrigatórios"
  const MissingData := "Dados obrigatórios ausentes"
  const NoSuchRecord := "Não encontrado"
  const NoSuchTurma := "Turma não encontrada"
  const MissingCredentials := "Informe e-mail e senha."
  const BadCredentials := "Credenciais inválidas."

  // ---------------------------------------------------------------------
  // Database invariants: the unique indexes and the schemas

  predicate UniqueEmails(usuarios: map<Id, Usuario>) {
    forall a, b :: a in usuarios && b in usuarios && a != b ==> usuarios[a].email_usuario != usuarios[b].email_usuario
  }

  predicate UniqueLogins(jogadores: map<Id, Jogador>) {
    forall a, b :: a in jogadores && b in jogadores && a != b ==> jogadores[a].login != jogadores[b].login
  }

  predicate Consistent(db: Db) {
    && UniqueEmails(db.usuarios)
    && UniqueLogins(db.jogadores)
    && (forall k :: k in db.usuarios ==> UsuarioConforms(db.usuarios[k]))
    && (forall k :: k in db.jogos ==> JogoConforms(db.jogos[k]))
    && (forall k :: k in db.turmas ==> TurmaConforms(db.turmas[k]))
    && (forall k :: k in db.jogadores ==> JogadorConforms(db.jogadores[k]))
  }

  /** `Usuario.findOne({ email_usuario: email })` finds something. */
  predicate EmailRegistered(usuarios: map<Id, Usuario>, email: string) {
    exists k :: k in usuarios && usuarios[k].email_usuario == email
  }

  // ---------------------------------------------------------------------
  // Writes as the document layer performs them: a save validates the schema
  // and the unique indexes, an insert also needs an unused id; any failure is
  // a rejected write (a 500 in every handler) and changes nothing.

  function SaveUsuario(db: Db, id: Id, u: Usuario): Option<Db> {
    if !UsuarioConforms(u) || exists k :: k in db.usuarios && k != id && db.usuarios[k].email_usuario == u.email_usuario
    then None
    else Some(db.(usuarios := db.usuarios[id := u]))
  }

  function InsertUsuario(db: Db, id: Id, u: Usuario): Option<Db> {
    if id in db.usuarios then None else SaveUsuario(db, id, u)
  }

  function SaveJogo(db: Db, id: Id, j: Jogo): Option<Db> {
    if !JogoConforms(j) then None else Some(db.(jogos := db.jogos[id := j]))
  }

  function InsertJogo(db: Db, id: Id, j: Jogo): Option<Db> {
    if id in db.jogos then None else SaveJogo(db, id, j)
  }

  function SaveTurma(db: Db, id: Id, t: Turma): Option<Db> {
    if !TurmaConforms(t) then None else Some(db.(turmas := db.turmas[id := t]))
  }

  function InsertTurma(db: Db, id: Id, t: Turma): Option<Db> {
    if id in db.turmas then None else SaveTurma(db, id, t)
  }

  function SaveJogador(db: Db, id: Id, j: Jogador): Option<Db> {
    if !JogadorConforms(j) || exists k :: k in db.jogadores && k != id && db.jogadores[k].login == j.login
    then None
    else Some(db.(jogadores := db.jogadores[id := j]))
  }

  function InsertJogador(db: Db, id: Id, j: Jogador): Option<Db> {
    if id in db.jogadores then None else SaveJogador(db, id, j)
  }

  // Each write the document layer accepts keeps the unique indexes and the
  // schemas intact.

  lemma SaveUsuarioConsistent(db: Db, id: Id, u: Usuario)
    requires Consistent(db) && SaveUsuario(db, id, u).Some?
    ensures Consistent(SaveUsuario(db, id, u).value)
  {
    var us := db.usuarios[id := u];
    forall a, b | a in us && b in us && a != b
      ensures us[a].email_usuario != us[b].email_usuario
    {
      if a != id && b != id {
        assert us[a] == db.usuarios[a] && us[b] == db.usuarios[b];
      }
    }
  }

  lemma SaveJogoConsistent(db: Db, id: Id, j: Jogo)
    requires Consistent(db) && SaveJogo(db, id, j).Some?
    ensures Consistent(SaveJogo(db, id, j).value)
  {
  }

  lemma SaveTurmaConsistent(db: Db, id: Id, t: Turma)
    requires Consistent(db) && SaveTurma(db, id, t).Some?
    ensures Consistent(SaveTurma(db, id, t).value)
  {
  }

  lemma SaveJogadorConsistent(db: Db, id: Id, j: Jogador)
    requires Consistent(db) && SaveJogador(db, id, j).Some?
    ensures Consistent(SaveJogador(db, id, j).value)
  {
    var js := db.jogadores[id := j];
    forall a, b | a in js && b in js && a != b
      ensures js[a].login != js[b].login
    {
      if a != id && b != id {
        assert js[a] == db.jogadores[a] && js[b] == db.jogadores[b];
      }
    }
  }

  /** The response to a write: `ok` on success, 500 when the write is
      rejected. */
  function Commit<T>(db: Db, written: Option<Db>, ok: Outcome<T>): Step<T> {
    if written.Some? then Step(written.value, ok) else Step(db, ServerError)
  }

  // ---------------------------------------------------------------------
  // Field helpers

  /** `if (field) record.x = field`. */
  function Pick(f: Field, current: string): string {
    if Truthy(f) then f.value else current
  }

  function PickField(f: Field, current: Field): Field {
    if Truthy(f) then f else current
  }

  /** `if (field) data.x = field`, for a field the new document lacks
      otherwise. */
  function IfTruthy(f: Field): Field {
    if Truthy(f) then f else None
  }

  /** The stored role list:
      `Array.isArray(perfil) ? perfil.slice(0,1) : (typeof perfil === 'string' && perfil ? [perfil] : [])`. */
  function PerfilArray(perfil: JsVal): (r: seq<JsVal>)
    ensures |r| <= 1
    ensures perfil.Arr? ==> |r| <= |perfil.items| && r == perfil.items[..|r|] && (r == [] <==> perfil.items == [])
    ensures !perfil.Arr? && r != [] ==> r == [perfil] && perfil.Str?
    ensures perfil.Str? ==> (r == [perfil] <==> perfil.s != "") && (r == [] <==> perfil.s == "")
  {
    match perfil
    case Arr(items) => if items == [] then [] else items[..1]
    case Str(s) => if s != "" then [perfil] else []
    case _ => []
  }

  /** The icon path of an uploaded file. */
  function IconUrl(upload: Field): Field {
    if upload.Some? then Some("/uploads/" + upload.value) else None
  }

  // ---------------------------------------------------------------------
  // /api/usuarios-instituicao (admin only)

  function CreateUsuario(db: Db, p: Principal, nome: Field, email: Field, senha: Field, instituicao: Field,
                         perfil: JsVal, salt: string, newId: Id): Step<Usuario>
  {
    if !IsAdmin(p) then Step(db, Forbidden)
    else if !Truthy(nome) || !Truthy(email) || !Truthy(senha) || !Truthy(instituicao) then Step(db, BadRequest(MissingUserFields))
    else if EmailRegistered(db.usuarios, Lower(email.value)) then Step(db, BadRequest(EmailTaken))
    else
      var novo := Usuario(nome.value, Lower(email.value), Hash(senha.value, salt), instituicao.value, PerfilArray(perfil));
      Commit(db, InsertUsuario(db, newId, novo), Created(novo))
  }

  function ListUsuarios(db: Db, p: Principal): Outcome<map<Id, Usuario>> {
    if !IsAdmin(p) then Forbidden else Ok(db.usuarios)
  }

  function PatchUsuario(u: Usuario, nome: Field, email: Field, senha: Field, instituicao: Field,
                        perfil: JsVal, salt: string): Usuario
  {
    u.(nome_usuario := Pick(nome, u.nome_usuario),
       email_usuario := if Truthy(email) then Lower(email.value) else u.email_usuario,
       instituicao_usuario := Pick(instituicao, u.instituicao_usuario),
       perfil := if !perfil.Undefined? then PerfilArray(perfil) else u.perfil,
       senha_hash := if Truthy(senha) then Hash(senha.value, salt) else u.senha_hash)
  }

  function UpdateUsuario(db: Db, p: Principal, id: Id, nome: Field, email: Field, senha: Field, instituicao: Field,
                         perfil: JsVal, salt: string): Step<Usuario>
  {
    if !IsAdmin(p) then Step(db, Forbidden)
    else if id !in db.usuarios then Step(db, NotFound(NoSuchRecord))
    else
      var u := PatchUsuario(db.usuarios[id], nome, email, senha, instituicao, perfil, salt);
      Commit(db, SaveUsuario(db, id, u), Ok(u))
  }

  function DeleteUsuario(db: Db, p: Principal, id: Id): Step<Ack> {
    if !IsAdmin(p) then Step(db, Forbidden)
    else if id !in db.usuarios then Step(db, NotFound(NoSuchRecord))
    else Step(db.(usuarios := db.usuarios - {id}), Ok(Ack))
  }

  // ---------------------------------------------------------------------
  // /api/jogos (reads for every signed-in user, writes admin only)

  function CreateJogo(db: Db, p: Principal, nome: Field, descricao: Field, identificacao: Field, link: Field,
                      totalNiveis: Field, xpMaxima: Field, createdBy: Field, upload: Field, newId: Id): Step<Jogo>
  {
    if !IsAdmin(p) then Step(db, Forbidden)
    else if !Truthy(nome) || !Truthy(identificacao) then Step(db, BadRequest(MissingGameFields))
    else
      var jogo := Jogo(nome.value, descricao, identificacao.value, IfTruthy(link), IconUrl(upload),
                       IfTruthy(totalNiveis), IfTruthy(xpMaxima), createdBy);
      Commit(db, InsertJogo(db, newId, jogo), Created(jogo))
  }

  function ListJogos(db: Db, p: Principal): Outcome<map<Id, Jogo>> {
    Ok(db.jogos)
  }

  function PatchJogo(j: Jogo, nome: Field, descricao: Field, identificacao: Field, link: Field,
                     totalNiveis: Field, xpMaxima: Field, upload: Field): Jogo
  {
    j.(nome := Pick(nome, j.nome),
       descricao := PickField(descricao, j.descricao),
       identificacao_unity := Pick(identificacao, j.identificacao_unity),
       link_jogar := PickField(link, j.link_jogar),
       total_niveis := PickField(totalNiveis, j.total_niveis),
       xp_maxima := PickField(xpMaxima, j.xp_maxima),
       icone_url := if upload.Some? then IconUrl(upload) else j.icone_url)
  }

  function UpdateJogo(db: Db, p: Principal, id: Id, nome: Field, descricao: Field, identificacao: Field, link: Field,
                      totalNiveis: Field, xpMaxima: Field, upload: Field): Step<Jogo>
  {
    if !IsAdmin(p) then Step(db, Forbidden)
    else if id !in db.jogos then Step(db, NotFound(NoSuchRecord))
    else
      var j := PatchJogo(db.jogos[id], nome, descricao, identificacao, link, totalNiveis, xpMaxima, upload);
      Commit(db, SaveJogo(db, id, j), Ok(j))
  }

  function DeleteJogo(db: Db, p: Principal, id: Id): Step<Ack> {
    if !IsAdmin(p) then Step(db, Forbidden)
    else if id !in db.jogos then Step(db, NotFound(NoSuchRecord))
    else Step(db.(jogos := db.jogos - {id}), Ok(Ack))
  }

  // ---------------------------------------------------------------------
  // /api/turmas (scoped by owner)

  function CreateTurma(db: Db, p: Principal, nome: Field, createdBy: Field, newId: Id): Step<Turma> {
    var owner := OwnerOnCreate(p, createdBy);
    if !Truthy(nome) || owner == "" then Step(db, BadRequest(MissingData))
    else
      var turma := Turma(nome.value, owner);
      Commit(db, InsertTurma(db, newId, turma), Created(turma))
  }

  function ListTurmas(db: Db, p: Principal): Outcome<map<Id, Turma>> {
    Ok(TurmaScope(p, db.turmas))
  }

  function PatchTurma(t: Turma, p: Principal, nome: Field, createdBy: Field): Turma {
    t.(nome_turma := Pick(nome, t.nome_turma),
       createdBy := if IsAdmin(p) then Pick(createdBy, t.createdBy) else t.createdBy)
  }

  function UpdateTurma(db: Db, p: Principal, id: Id, nome: Field, createdBy: Field): Step<Turma> {
    if id !in db.turmas then Step(db, NotFound(NoSuchRecord))
    else if !MayActOnTurma(p, db.turmas[id]) then Step(db, Forbidden)
    else
      var t := PatchTurma(db.turmas[id], p, nome, createdBy);
      Commit(db, SaveTurma(db, id, t), Ok(t))
  }

  function DeleteTurma(db: Db, p: Principal, id: Id): Step<Ack> {
    if id !in db.turmas then Step(db, NotFound(NoSuchRecord))
    else if !MayActOnTurma(p, db.turmas[id]) then Step(db, Forbidden)
    else Step(db.(turmas := db.turmas - {id}), Ok(Ack))
  }

  // ---------------------------------------------------------------------
  // /api/jogadores (scoped by the owner of the player's class)

  /** The document the create handler hands to `Jogador.create`. It carries
      no `senha_visivel`. */
  function NewJogador(p: Principal, nome: string, login: string, senha: string, turma: Id,
                      createdBy: Field, salt: string): Jogador
  {
    Jogador(Lower(login), Hash(senha, salt), None, nome, turma, OwnerOnCreate(p, createdBy))
  }

  function CreateJogador(db: Db, p: Principal, nome: Field, login: Field, senha: Field, turma: Field,
                         createdBy: Field, salt: string, newId: Id): Step<Jogador>
  {
    if !Truthy(nome) || !Truthy(login) || !Truthy(senha) || !Truthy(turma) then Step(db, BadRequest(MissingData))
    else if turma.value !in db.turmas then Step(db, NotFound(NoSuchTurma))
    else if !MayActOnTurma(p, db.turmas[turma.value]) then Step(db, Forbidden)
    else
      var jogador := NewJogador(p, nome.value, login.value, senha.value, turma.value, createdBy, salt);
      Commit(db, InsertJogador(db, newId, jogador), Created(jogador))
  }

  function ListJogadores(db: Db, p: Principal, turma: Field): Outcome<map<Id, Jogador>> {
    Ok(JogadorScope(p, db.turmas, db.jogadores, turma))
  }

  function PatchJogador(j: Jogador, login: Field, nome: Field, turma: Field, senha: Field, salt: string): Jogador {
    j.(login := if Truthy(login) then Lower(login.value) else j.login,
       nome_jogador := Pick(nome, j.nome_jogador),
       turma := Pick(turma, j.turma),
       senha_hash := if Truthy(senha) then Hash(senha.value, salt) else j.senha_hash)
  }

  function UpdateJogador(db: Db, p: Principal, id: Id, login: Field, senha: Field, turma: Field, nome: Field,
                         salt: string): Step<Jogador>
  {
    if id !in db.jogadores then Step(db, NotFound(NoSuchRecord))
    else if !MayActOnJogador(p, db.turmas, db.jogadores[id]) then Step(db, Forbidden)
    else if Truthy(turma) && turma.value !in db.turmas then Step(db, NotFound(NoSuchTurma))
    else if Truthy(turma) && !MayActOnTurma(p, db.turmas[turma.value]) then Step(db, Forbidden)
    else
      var j := PatchJogador(db.jogadores[id], login, nome, turma, senha, salt);
      Commit(db, SaveJogador(db, id, j), Ok(j))
  }

  function DeleteJogador(db: Db, p: Principal, id: Id): Step<Ack> {
    if id !in db.jogadores then Step(db, NotFound(NoSuchRecord))
    else if !MayActOnJogador(p, db.turmas, db.jogadores[id]) then Step(db, Forbidden)
    else Step(db.(jogadores := db.jogadores - {id}), Ok(Ack))
  }

  // ---------------------------------------------------------------------
  // POST /login: the credential checks

  /** `(req.body.email || req.body.username || '').toLowerCase()`. */
  function LoginKey(email: Field, username: Field): string {
    if Truthy(email) then Lower(email.value) else if Truthy(username) then Lower(username.value) else ""
  }

  /** `req.body.password || req.body.senha`. */
  function LoginSecret(password: Field, senha: Field): Field {
    if Truthy(password) then password else senha
  }
}
