/**
 * The error translation of user creation: a unique-constraint violation (Prisma code
 * P2002) becomes a message naming the clashing field, with CPF/CNPJ first, then e-mail,
 * then the auth id; any other failure is passed on unchanged.
 */
module UserRepository {
  import opened Wrappers
  import opened Text

  const UniqueViolation := "P2002"

  const CpfCnpjTaken := "Este CPF/CNPJ já está cadastrado no sistema"
  const EmailTaken := "Este email já está cadastrado no sistema"
  const UserTaken := "Este usuário já está cadastrado no sistema"
  const DataTaken := "Dados já cadastrados no sistema"

  /** `error.meta.target`: a list of field names, a constraint name, or absent. */
  datatype Target = Fields(fields: seq<string>) | ConstraintName(name: string) | NoTarget

  /** The error the database client throws. */
  datatype DbError = DbError(code: string, target: Target, message: string)

  /** What `create` throws after catching `e`. */
  datatype Thrown = Translated(message: string) | Rethrown(error: DbError)

  /** `target.includes(field)`: list membership, or substring search on a constraint name. */
  predicate Includes(t: Target, field: string) {
    match t
    case Fields(fs) => field in fs
    case ConstraintName(n) => Contains(n, field)
    case NoTarget => false
  }

  /** The catch block of `create`. */
  function Translate(e: DbError): (r: Thrown)
    ensures r.Rethrown? <==> e.code != UniqueViolation
    ensures r.Rethrown? ==> r.error == e
  {
    if e.code == UniqueViolation then
      if Includes(e.target, "cpfCnpj") then Translated(CpfCnpjTaken)
      else if Includes(e.target, "email") then Translated(EmailTaken)
      else if Includes(e.target, "supabaseAuthId") then Translated(UserTaken)
      else Translated(DataTaken)
    else Rethrown(e)
  }

  /**
   * Each message of a unique violation names the first clashing field in the order cpfCnpj,
   * email, supabaseAuthId; none of them matching, or no target at all, gives the generic message.
   */
  lemma TranslatePrecedence(e: DbError)
    requires e.code == UniqueViolation
    ensures Translate(e) == Translated(CpfCnpjTaken) <==> Includes(e.target, "cpfCnpj")
    ensures Translate(e) == Translated(EmailTaken) <==>
              !Includes(e.target, "cpfCnpj") && Includes(e.target, "email")
    ensures Translate(e) == Translated(UserTaken) <==>
              !Includes(e.target, "cpfCnpj") && !Includes(e.target, "email") && Includes(e.target, "supabaseAuthId")
    ensures Translate(e) == Translated(DataTaken) <==>
              !Includes(e.target, "cpfCnpj") && !Includes(e.target, "email") && !Includes(e.target, "supabaseAuthId")
    ensures e.target.NoTarget? ==> Translate(e) == Translated(DataTaken)
  {
  }

  /** A clash on CPF/CNPJ is reported as such whatever else clashes with it. */
  lemma CpfCnpjWins(fields: seq<string>, message: string)
    requires "cpfCnpj" in fields
    ensures Translate(DbError(UniqueViolation, Fields(fields), message)) == Translated(CpfCnpjTaken)
    ensures Translate(DbError(UniqueViolation, Fields(fields + ["email"]), message)) == Translated(CpfCnpjTaken)
  {
  }
}
