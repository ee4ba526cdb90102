/**
 * The choices `sendEmail` makes before it posts a message to the email
 * provider: the early refusal when the API key or the recipient is missing,
 * the plan price with its fallback, the subject (with "jour"/"jours"), and
 * the name in the greeting. The provider's answer is an input: `delivered`.
 */
module Notification {
  import opened Wrappers
  import opened TrialPolicy
  import opened Decimal

  /** Monthly price in FCFA used when the plan is not in the table. */
  const DefaultPrice: nat := 29000

  /** The PRIX table: monthly price in FCFA per plan name. */
  const Prix: map<string, nat> := map["Starter" := 15000, "Professionnel" := 29000, "Entreprise" := 55000]

  /** The two message templates. */
  datatype EmailKind = TrialReminder | Expiration

  /** What is posted to the email provider (the HTML layout aside). */
  datatype Email = Email(
    to: string,
    subject: string,
    greeting: string,
    nom: string,
    plan: string,
    price: nat,
    days: int)

  /** The outcome of one `sendEmail` call: what was posted, if anything, and its result. */
  datatype Dispatch = Dispatch(posted: Option<Email>, ok: bool)

  /**
   * `prix[plan] || 29000`: the table's price, or the default when the plan is
   * missing from the table or its price is falsy (0).
   */
  function PlanPrice(plan: string): (p: nat)
    ensures p > 0
    ensures plan in Prix ==> p == Prix[plan]
    ensures plan !in Prix ==> p == DefaultPrice
  {
    if plan in Prix && Prix[plan] != 0 then Prix[plan] else DefaultPrice
  }

  /** The three tiers and the fallback, which is the middle tier's price. */
  lemma PlanPriceTable(plan: string)
    ensures PlanPrice("Starter") == 15000
    ensures PlanPrice("Professionnel") == 29000
    ensures PlanPrice("Entreprise") == 55000
    ensures plan != "Starter" && plan != "Professionnel" && plan != "Entreprise" ==>
      PlanPrice(plan) == 29000
    ensures PlanPrice(plan) in {15000, 29000, 55000}
  {
  }

  /** `jour${jours>1?"s":""}`: plural exactly when more than one day remains. */
  function DayUnit(days: int): (u: string)
    ensures u == "jour" || u == "jours"
    ensures u == "jours" <==> days > 1
  {
    if days > 1 then "jours" else "jour"
  }

  const ReminderSubjectStem: string := "⏳ Votre essai PharmaGest expire dans "
  const ExpirationSubject: string := "❌ Votre essai PharmaGest a expiré — Renouvelez maintenant"

  /**
   * The subject line. The reminder subject carries the day count and its
   * unit; the expiration subject is fixed whatever count is passed.
   */
  function Subject(kind: EmailKind, days: int): (s: string)
    ensures kind == Expiration ==> s == ExpirationSubject
    ensures kind == TrialReminder ==>
      s == ReminderSubjectStem + IntToDecimal(days) + " " + DayUnit(days)
  {
    match kind
    case TrialReminder => ReminderSubjectStem + IntToDecimal(days) + " " + DayUnit(days)
    case Expiration => ExpirationSubject
  }

  /** A rendered day count never contains a space. */
  lemma NumeralHasNoSpace(d: int, k: nat)
    requires k < |IntToDecimal(d)|
    ensures IntToDecimal(d)[k] != ' '
  {
  }

  /**
   * In `stem + t + " " + u`, the character right after `t` is the space, and
   * the characters before it are those of `t`.
   */
  lemma SplitAtSpace(stem: string, t: string, u: string, k: nat)
    requires k <= |t|
    ensures (stem + t + " " + u)[|stem| + k] == if k == |t| then ' ' else t[k]
  {
  }

  /** The reminder subject names the day count: different counts, different subjects. */
  lemma ReminderSubjectDeterminesDays(d1: int, d2: int)
    requires Subject(TrialReminder, d1) == Subject(TrialReminder, d2)
    ensures d1 == d2
  {
    var n := |ReminderSubjectStem|;
    var t1, t2 := IntToDecimal(d1), IntToDecimal(d2);
    var s1 := ReminderSubjectStem + t1 + " " + DayUnit(d1);
    var s2 := ReminderSubjectStem + t2 + " " + DayUnit(d2);
    // The numeral ends at the first space after the stem, so both numerals
    // have the same length and hence are equal.
    if |t1| < |t2| {
      SplitAtSpace(ReminderSubjectStem, t1, DayUnit(d1), |t1|);
      SplitAtSpace(ReminderSubjectStem, t2, DayUnit(d2), |t1|);
      NumeralHasNoSpace(d2, |t1|);
      assert false;
    } else if |t2| < |t1| {
      SplitAtSpace(ReminderSubjectStem, t2, DayUnit(d2), |t2|);
      SplitAtSpace(ReminderSubjectStem, t1, DayUnit(d1), |t2|);
      NumeralHasNoSpace(d1, |t2|);
      assert false;
    }
    assert t1 == s1[n..n + |t1|] == s2[n..n + |t2|] == t2;
    IntToDecimalInjective(d1, d2);
  }

  /** `ph.contact || ph.nom`: the contact name when present and non-empty, else the pharmacy name. */
  function GreetingName(ph: Account): (name: string)
    ensures ph.contact.Some? && ph.contact.value != "" ==> name == ph.contact.value
    ensures ph.contact.None? || ph.contact.value == "" ==> name == ph.nom
  {
    match ph.contact
    case Some(c) => if c != "" then c else ph.nom
    case None => ph.nom
  }

  /** The message `sendEmail` would post for this account, template and day count. */
  function Compose(ph: Account, kind: EmailKind, days: int): (e: Email)
    ensures e.to == ph.email && e.nom == ph.nom && e.plan == ph.plan && e.days == days
    ensures e.subject == Subject(kind, days)
    ensures e.greeting == GreetingName(ph)
    ensures e.price == PlanPrice(ph.plan)
  {
    Email(ph.email, Subject(kind, days), GreetingName(ph), ph.nom, ph.plan, PlanPrice(ph.plan), days)
  }

  /**
   * One call of `sendEmail`. Without an API key or a recipient it returns
   * false and posts nothing; otherwise it posts the composed message and
   * returns what the provider answered (`delivered`).
   */
  function SendEmail(apiKey: string, ph: Account, kind: EmailKind, days: int, delivered: bool): (d: Dispatch)
    ensures d.posted.None? <==> apiKey == "" || ph.email == ""
    ensures d.posted.Some? ==> d.posted.value == Compose(ph, kind, days)
    ensures d.ok <==> d.posted.Some? && delivered
  {
    if apiKey == "" || ph.email == "" then Dispatch(None, false)
    else Dispatch(Some(Compose(ph, kind, days)), delivered)
  }
}
