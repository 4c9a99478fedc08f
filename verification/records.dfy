/** The four kinds of document the handlers store (users, games, classes and
    players), the request fields they are built from, and the password digest. */
module Records {
  import opened Roles

  datatype Option<+T> = None | Some(value: T)

  /** Document ids. Every id is compared as a string, which is what
      `String(a) === String(b)` does. */
  type Id = string

  /** A request field: absent, or the string the client sent. */
  type Field = Option<string>

  /** JavaScript truthiness of a request field: present and not "". */
  predicate Truthy(f: Field) {
    f.Some? && f.value != ""
  }

  /** bcrypt reads at most 72 bytes of a password; the rest is ignored. */
  const MaxKeyLength: nat := 72

  /** The part of a password bcrypt actually hashes. */
  function BcryptKey(password: string): string {
    if |password| <= MaxKeyLength then password else password[..MaxKeyLength]
  }

  /** `bcrypt.hash(password, 10)` as a symbolic term: the digest records the
      cost factor, the random salt it was made with and the key it was made
      from. Two digests are equal only when they were made from the same key
      and salt. */
  datatype Digest = Bcrypt(rounds: nat, salt: string, key: string)

  const SaltRounds: nat := 10

  function Hash(password: string, salt: string): Digest {
    Bcrypt(SaltRounds, salt, BcryptKey(password))
  }

  /** `bcrypt.compare(password, digest)`: re-hash with the digest's own salt
      and cost, and compare. */
  predicate Verify(password: string, digest: Digest) {
    Bcrypt(digest.rounds, digest.salt, BcryptKey(password)) == digest
  }

  /** A stored digest accepts the password it was made from, and exactly the
      passwords that agree with it on the first 72 characters; among
      passwords no longer than that, only the password itself. */
  lemma VerifyHash(password: string, other: string, salt: string)
    ensures Verify(password, Hash(password, salt))
    ensures Verify(other, Hash(password, salt)) <==> BcryptKey(other) == BcryptKey(password)
    ensures |password| <= MaxKeyLength && |other| <= MaxKeyLength ==>
              (Verify(other, Hash(password, salt)) <==> other == password)
  {
  }

  /** Two passwords that differ only after their 72nd character verify
      against each other's digest. */
  lemma LongPasswordsCollide(password: string, other: string, salt: string)
    requires |password| >= MaxKeyLength && |other| >= MaxKeyLength
    requires password[..MaxKeyLength] == other[..MaxKeyLength]
    ensures Verify(other, Hash(password, salt))
  {
  }

  /** `Usuario` (user). */
  datatype Usuario = Usuario(
    nome_usuario: string,
    email_usuario: string,
    senha_hash: Digest,
    instituicao_usuario: string,
    perfil: seq<JsVal>)

  /** `Jogo` (game). Optional fields are `None` when the document lacks them
      (or holds null). The numeric fields keep the text the form sent. */
  datatype Jogo = Jogo(
    nome: string,
    descricao: Field,
    identificacao_unity: string,
    link_jogar: Field,
    icone_url: Field,
    total_niveis: Field,
    xp_maxima: Field,
    createdBy: Field)

  /** `Turma` (class). Its owner may be any non-null value; here it is a
      string id. */
  datatype Turma = Turma(nome_turma: string, createdBy: Id)

  /** `Jogador` (player). `turma` refers to a class by id. */
  datatype Jogador = Jogador(
    login: string,
    senha_hash: Digest,
    senha_visivel: Field,
    nome_jogador: string,
    turma: Id,
    createdBy: Id)

  // Schema validation as the document layer runs it on every insert and
  // save: a required String path must hold a non-empty string.

  predicate UsuarioConforms(u: Usuario) {
    u.nome_usuario != "" && u.email_usuario != "" && u.instituicao_usuario != ""
  }

  predicate JogoConforms(j: Jogo) {
    j.nome != "" && j.identificacao_unity != ""
  }

  predicate TurmaConforms(t: Turma) {
    t.nome_turma != ""
  }

  predicate JogadorConforms(j: Jogador) {
    j.login != "" && Truthy(j.senha_visivel) && j.nome_jogador != ""
  }
}
