/** The banking responder: the knowledge agent's answer when it has one, else the
    template of the first intent whose pattern matches, else the downstream model asked
    under a strict banking-only prompt. */
module BankingResponder {
  import opened Util

  /** The intents, in the order their rules are tried. */
  datatype Intent =
    | EmiCalculation
    | FdRates
    | FdRules
    | RdRules
    | UpiLimit
    | WhatIsUpi
    | WhatIsIfsc
    | IfscInfo
    | SavingsAccount
    | AuthFailure
    | BankDataStorage
    | TransactionFormat
    | ExampleRecord
    | BankingFlow
    | OtpInfo
    | KycDocs
    | CibilInfo
    | CibilImprove
    | NeftProcess
    | RtgsInfo
    | ImpsInfo
    | LoanEligibility
    | HomeLoanDocs
    | CreditCardApply
    | RewardPoints
    | PinReset
    | BlockCard
    | RaiseDispute
    | BankHours
    | RbiGuidelines
    | InterestCalc

  const IntentOrder := [
    EmiCalculation,
    FdRates,
    FdRules,
    RdRules,
    UpiLimit,
    WhatIsUpi,
    WhatIsIfsc,
    IfscInfo,
    SavingsAccount,
    AuthFailure,
    BankDataStorage,
    TransactionFormat,
    ExampleRecord,
    BankingFlow,
    OtpInfo,
    KycDocs,
    CibilInfo,
    CibilImprove,
    NeftProcess,
    RtgsInfo,
    ImpsInfo,
    LoanEligibility,
    HomeLoanDocs,
    CreditCardApply,
    RewardPoints,
    PinReset,
    BlockCard,
    RaiseDispute,
    BankHours,
    RbiGuidelines,
    InterestCalc]

  /** The intent's name, as reported in a response. */
  function Name(i: Intent): string {
    match i
    case EmiCalculation => "emi_calculation"
    case FdRates => "fd_rates"
    case FdRules => "fd_rules"
    case RdRules => "rd_rules"
    case UpiLimit => "upi_limit"
    case WhatIsUpi => "what_is_upi"
    case WhatIsIfsc => "what_is_ifsc"
    case IfscInfo => "ifsc_info"
    case SavingsAccount => "savings_account"
    case AuthFailure => "auth_failure"
    case BankDataStorage => "bank_data_storage"
    case TransactionFormat => "transaction_format"
    case ExampleRecord => "example_record"
    case BankingFlow => "banking_flow"
    case OtpInfo => "otp_info"
    case KycDocs => "kyc_docs"
    case CibilInfo => "cibil_info"
    case CibilImprove => "cibil_improve"
    case NeftProcess => "neft_process"
    case RtgsInfo => "rtgs_info"
    case ImpsInfo => "imps_info"
    case LoanEligibility => "loan_eligibility"
    case HomeLoanDocs => "home_loan_docs"
    case CreditCardApply => "credit_card_apply"
    case RewardPoints => "reward_points"
    case PinReset => "pin_reset"
    case BlockCard => "block_card"
    case RaiseDispute => "raise_dispute"
    case BankHours => "bank_hours"
    case RbiGuidelines => "rbi_guidelines"
    case InterestCalc => "interest_calc"
  }

  /** `RESPONSES[intent]`: every intent has its template. */
  function Response(i: Intent): string {
    match i
    case EmiCalculation =>
      "EMI = P \U{00D7} r \U{00D7} (1+r)^n / ((1+r)^n - 1). Example: \U{20B9}5,00,000 at 10% p.a. for 5 years (r\U{2248}0.10/12, n=60) \U{2192} ~\U{20B9}10,624/month."
    case FdRates =>
      "Typical FD rates range from 6.5% to 7.5% p.a. Senior citizens may get 0.25\U{2013}0.5% extra."
    case UpiLimit =>
      "UPI limit is commonly \U{20B9}1 lakh per transaction. Some banks allow \U{20B9}2 lakh for specific categories."
    case KycDocs =>
      "KYC usually needs: Aadhaar/PAN (ID), address proof, and a recent passport photo."
    case CibilInfo =>
      "CIBIL score ranges 300\U{2013}900. A score above 750 is generally considered good for loan approvals."
    case NeftProcess =>
      "NEFT transfer: add beneficiary (name, account, IFSC), wait for activation (if required), then initiate transfer via net/mobile banking."
    case RtgsInfo =>
      "RTGS is for high-value transfers; many banks support 24x7 RTGS. Minimum is often \U{20B9}2 lakh (bank-specific)."
    case ImpsInfo =>
      "IMPS is instant 24x7 transfers via mobile/net banking using account+IFSC or mobile+MMID (where supported)."
    case LoanEligibility =>
      "Loan eligibility depends on income, existing obligations, credit score, employer profile, age, and requested tenure. Banks verify documents before approval."
    case HomeLoanDocs =>
      "Home loan documents typically include ID/address proof, income proof (salary slips/ITR), bank statements, and property documents."
    case CreditCardApply =>
      "To apply for a credit card: check eligibility, submit KYC + income proof, complete verification, then approval and card dispatch."
    case RewardPoints =>
      "Reward points depend on your card variant. Usually you earn points per \U{20B9} spent and can redeem them for vouchers, products, or statement credit."
    case PinReset =>
      "PIN reset can be done via ATM, net/mobile banking, or by calling customer care (process varies by bank)."
    case BlockCard =>
      "If your card is lost, block it immediately via mobile/net banking or customer care, then request a replacement card."
    case RaiseDispute =>
      "For an unauthorized transaction, raise a dispute via app/net banking or customer care as soon as possible and keep your transaction reference handy."
    case BankHours =>
      "Typical branch hours are 10:00 AM\U{2013}4:00 PM (varies by location). Many services are available 24x7 via net/mobile banking."
    case WhatIsIfsc =>
      "IFSC is an 11-character bank branch code used for NEFT/RTGS/IMPS transfers."
    case WhatIsUpi =>
      "UPI is a real-time payment system allowing instant transfers using a UPI ID/QR. It works 24x7."
    case RdRules =>
      "RD allows monthly deposits for a fixed tenure. Interest is similar to FD rates (bank-specific) and premature closure rules vary."
    case FdRules =>
      "FD is a lump-sum deposit for a fixed tenure. Interest rate depends on tenure and amount; premature withdrawal may incur a penalty."
    case RbiGuidelines =>
      "RBI issues guidelines on KYC, customer protection, digital payments, and grievance redressal. You can also refer to RBI\U{2019}s official website for circulars."
    case CibilImprove =>
      "To improve CIBIL: pay EMIs/credit card dues on time, keep utilization low, avoid frequent loan applications, and maintain a healthy credit mix."
    case InterestCalc =>
      "Interest can be simple or compound depending on the product. Loans typically use reducing balance with monthly compounding."
    case IfscInfo =>
      "IFSC (Indian Financial System Code) is an 11-character alphanumeric code identifying your bank branch. You can find it on your cheque book, passbook, or RBI's website. Example: SBIN0001234."
    case SavingsAccount =>
      "A savings account is a basic deposit account that earns interest (typically 2.5%\U{2013}4% p.a.) on your balance. It provides liquidity, a debit card, and net banking access. Minimum balance varies by bank (\U{20B9}500\U{2013}\U{20B9}10,000)."
    case AuthFailure =>
      "If authentication fails: after 3 wrong PIN/password attempts, your account is temporarily locked for security. You can unlock it via OTP-based reset on net banking or by visiting your branch with valid ID proof."
    case BankDataStorage =>
      "Banks store customer data in encrypted, RBI-compliant core banking systems (CBS) like Finacle or BaNCS. Data is stored in secured data centers with AES-256 encryption, access controls, and regular audits as per RBI IT guidelines."
    case TransactionFormat =>
      "Bank transactions follow ISO 8583 messaging standard internationally. Internally, records typically contain: transaction ID, timestamp, amount, sender/receiver account hash, transaction type, and status code."
    case ExampleRecord =>
      "Here is a dummy example transaction record: {txn_id: 'TXN2024001', amount: '\U{20B9}5,000', type: 'NEFT', status: 'SUCCESS', timestamp: '2024-01-15 14:32:10'}. Real records are encrypted and accessible only via authenticated sessions."
    case BankingFlow =>
      "General banking system flow: Customer Request \U{2192} API Gateway \U{2192} Authentication Service \U{2192} Core Banking System (CBS) \U{2192} Database \U{2192} Response. Each layer has encryption, audit logging, and access controls per RBI guidelines."
    case OtpInfo =>
      "OTP is sent to your registered mobile number. Never share your OTP with anyone, including bank employees."
  }

  const StrictBankingSystemPrompt := "You are a helpful banking assistant for an Indian bank. Answer ONLY banking and finance related questions. Do not answer anything outside banking domain. Keep answers concise, accurate, and professional. If you don't know, say \"Please contact our helpline at 1800-XXX-XXXX\"."

  datatype BankingResponse = BankingResponse(intent: Option<string>, response: string, usedTemplate: bool)

  /** The knowledge agent's call: an exception, or its answer (empty when it has none). */
  datatype AgentCall = AgentFailed | AgentAnswer(answer: string)

  /** The intent rules, given each intent's pattern search. */
  function IntentRules(search: Intent -> string -> bool): (rules: seq<(string -> bool, Intent)>)
    ensures |rules| == |IntentOrder|
    ensures forall i :: 0 <= i < |rules| ==> rules[i] == (search(IntentOrder[i]), IntentOrder[i])
  {
    seq(|IntentOrder|, i requires 0 <= i < |IntentOrder| => (search(IntentOrder[i]), IntentOrder[i]))
  }

  /** Every intent has a rule (and, by `Response`, a template). */
  lemma EveryIntentHasRule(intent: Intent)
    ensures intent in IntentOrder
  {
  }

  /** `match_intent`: the first intent, in rule order, whose pattern matches the text. */
  method MatchIntent(search: Intent -> string -> bool, text: string) returns (r: Option<Intent>)
    ensures var m := FirstMatch(IntentRules(search), text);
      && (r.Some? <==> m.Some?)
      && (r.Some? ==> r.value == IntentOrder[m.value])
  {
    var i := 0;
    while i < |IntentOrder|
      invariant 0 <= i <= |IntentOrder|
      invariant forall j :: 0 <= j < i ==> !search(IntentOrder[j])(text)
    {
      if search(IntentOrder[i])(text) {
        return Some(IntentOrder[i]);
      }
      i := i + 1;
    }
    return None;
  }

  /** What the downstream model is asked when no template applies. */
  function LlmPrompt(text: string): (p: string)
    ensures StrictBankingSystemPrompt + "\n\nUser: " <= p
  {
    StrictBankingSystemPrompt + "\n\nUser: " + Strip(text)
  }

  /** `respond`: a non-empty agent answer as intent "agent"; otherwise the matched
      intent's template; otherwise one call to the downstream model, with no intent. */
  method Respond(agent: AgentCall, search: Intent -> string -> bool, llm: string -> string, text: string)
    returns (r: BankingResponse)
    ensures agent.AgentAnswer? && agent.answer != "" ==> r == BankingResponse(Some("agent"), agent.answer, false)
    ensures !(agent.AgentAnswer? && agent.answer != "") ==>
      var m := FirstMatch(IntentRules(search), text);
      && (m.Some? ==> r == BankingResponse(Some(Name(IntentOrder[m.value])), Response(IntentOrder[m.value]), true))
      && (m.None? ==> r == BankingResponse(None, llm(LlmPrompt(text)), false))
  {
    if agent.AgentAnswer? && agent.answer != "" {
      return BankingResponse(Some("agent"), agent.answer, false);
    }
    var intent := MatchIntent(search, text);
    if intent.Some? {
      return BankingResponse(Some(Name(intent.value)), Response(intent.value), true);
    }
    return BankingResponse(None, llm(LlmPrompt(text)), false);
  }
}
