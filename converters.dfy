/**
 * Enum <-> column-string converters. Each enum is stored by its constant's
 * symbolic name; decoding a string that names no constant fails (the
 * `valueOf` exception), modelled as `None`.
 */
module Converters {
  import opened Wrappers
  import opened Entities

  function FromTransactionType(t: TransactionType): string {
    match t
    case CASH => "CASH"
    case BANK => "BANK"
  }

  function ToTransactionType(s: string): (r: Option<TransactionType>)
    ensures r.Some? <==> s == "CASH" || s == "BANK"
    ensures r.Some? ==> FromTransactionType(r.value) == s
  {
    if s == "CASH" then Some(CASH)
    else if s == "BANK" then Some(BANK)
    else None
  }

  function FromTransactionCategory(c: TransactionCategory): string {
    match c
    case CREDIT => "CREDIT"
    case DEBIT => "DEBIT"
  }

  function ToTransactionCategory(s: string): (r: Option<TransactionCategory>)
    ensures r.Some? <==> s == "CREDIT" || s == "DEBIT"
    ensures r.Some? ==> FromTransactionCategory(r.value) == s
  {
    if s == "CREDIT" then Some(CREDIT)
    else if s == "DEBIT" then Some(DEBIT)
    else None
  }

  function FromPlanningType(p: PlanningType): string {
    match p
    case INCOME => "INCOME"
    case PAYMENT => "PAYMENT"
  }

  function ToPlanningType(s: string): (r: Option<PlanningType>)
    ensures r.Some? <==> s == "INCOME" || s == "PAYMENT"
    ensures r.Some? ==> FromPlanningType(r.value) == s
  {
    if s == "INCOME" then Some(INCOME)
    else if s == "PAYMENT" then Some(PAYMENT)
    else None
  }

  function FromPlanningStatus(p: PlanningStatus): string {
    match p
    case PENDING => "PENDING"
    case COMPLETED => "COMPLETED"
    case DELAYED => "DELAYED"
  }

  function ToPlanningStatus(s: string): (r: Option<PlanningStatus>)
    ensures r.Some? <==> s == "PENDING" || s == "COMPLETED" || s == "DELAYED"
    ensures r.Some? ==> FromPlanningStatus(r.value) == s
  {
    if s == "PENDING" then Some(PENDING)
    else if s == "COMPLETED" then Some(COMPLETED)
    else if s == "DELAYED" then Some(DELAYED)
    else None
  }

  /** Decoding an encoded constant gives the constant back, for all four enums. */
  lemma DecodeEncode(t: TransactionType, c: TransactionCategory, p: PlanningType, st: PlanningStatus)
    ensures ToTransactionType(FromTransactionType(t)) == Some(t)
    ensures ToTransactionCategory(FromTransactionCategory(c)) == Some(c)
    ensures ToPlanningType(FromPlanningType(p)) == Some(p)
    ensures ToPlanningStatus(FromPlanningStatus(st)) == Some(st)
  {
  }

  /** The encoding is by name, so distinct constants get distinct strings. */
  lemma EncodingInjective(t1: TransactionType, t2: TransactionType, c1: TransactionCategory, c2: TransactionCategory,
                          p1: PlanningType, p2: PlanningType, s1: PlanningStatus, s2: PlanningStatus)
    ensures FromTransactionType(t1) == FromTransactionType(t2) ==> t1 == t2
    ensures FromTransactionCategory(c1) == FromTransactionCategory(c2) ==> c1 == c2
    ensures FromPlanningType(p1) == FromPlanningType(p2) ==> p1 == p2
    ensures FromPlanningStatus(s1) == FromPlanningStatus(s2) ==> s1 == s2
  {
  }
}
