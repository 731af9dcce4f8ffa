/** The banking prefilter: a deterministic BLOCK for bulk extraction and for sensitive
    tokens next to exfiltration, bypass or transaction wording, an ALLOW for whitelisted
    banking intents, and PASS_TO_MODEL for everything else. */
module BankingRules {
  import opened Util

  datatype Decision = Block | Allow | PassToModel

  datatype RuleDecision = RuleDecision(decision: Decision, reason: string)

  /** The searches the prefilter runs on the stripped text, one per regular expression
      (all case-insensitive except the digit run). */
  datatype Signals = Signals(
    dataExtraction: string -> bool,
    exfilVerb: string -> bool,
    bypassVerb: string -> bool,
    txnVerb: string -> bool,
    txnObject: string -> bool,
    advisoryQuestion: string -> bool,
    accountNumber: string -> bool,
    accountNumberWord: string -> bool,
    cvv: string -> bool,
    otp: string -> bool,
    whitelistIntent: string -> bool)

  /** A transaction verb together with a transaction object. */
  predicate HasTxn(s: Signals, t: string) {
    s.txnVerb(t) && s.txnObject(t)
  }

  /** A long digit run, an account or card number mention, or a CVV mention. */
  predicate StrictSensitive(s: Signals, t: string) {
    s.accountNumber(t) || s.accountNumberWord(t) || s.cvv(t)
  }

  /** Exfiltration wording that is not an advisory question. */
  predicate Exfiltrates(s: Signals, t: string) {
    s.exfilVerb(t) && !s.advisoryQuestion(t)
  }

  /** A sensitive token with bypass, transaction or (non-advisory) exfiltration wording. */
  predicate SensitiveWithAction(s: Signals, t: string) {
    StrictSensitive(s, t) && (s.bypassVerb(t) || HasTxn(s, t) || Exfiltrates(s, t))
  }

  /** An OTP mention with bypass, transaction or (non-advisory) exfiltration wording. */
  predicate OtpMisuse(s: Signals, t: string) {
    s.otp(t) && (s.bypassVerb(t) || HasTxn(s, t) || Exfiltrates(s, t))
  }

  /** Whether any of the three block rules fires. */
  predicate BlockRuleFires(s: Signals, t: string) {
    s.dataExtraction(t) || SensitiveWithAction(s, t) || OtpMisuse(s, t)
  }

  /** `banking_prefilter`. Blank text passes with reason "empty"; otherwise it blocks
      exactly when a block rule fires (bulk extraction first), allows exactly when none
      fires and the whitelist matches, and passes the rest to the model. */
  function Prefilter(s: Signals, text: string): (r: RuleDecision)
    ensures Blank(text) ==> r == RuleDecision(PassToModel, "empty")
    ensures var t := Strip(text);
      && (r.decision == Block <==> !Blank(text) && BlockRuleFires(s, t))
      && (r.decision == Allow <==> !Blank(text) && !BlockRuleFires(s, t) && s.whitelistIntent(t))
      && (!Blank(text) && s.dataExtraction(t) ==> r.reason == "data_extraction_attempt")
      && (!Blank(text) && !s.dataExtraction(t) && SensitiveWithAction(s, t) ==>
            r.reason == "sensitive_data_with_action")
      && (!Blank(text) && !s.dataExtraction(t) && !SensitiveWithAction(s, t) && OtpMisuse(s, t) ==>
            r.reason == "otp_exfil_or_bypass")
  {
    var t := Strip(text);
    if t == [] then RuleDecision(PassToModel, "empty")
    else if s.dataExtraction(t) then RuleDecision(Block, "data_extraction_attempt")
    else if StrictSensitive(s, t) && (s.bypassVerb(t) || HasTxn(s, t)) then
      RuleDecision(Block, "sensitive_data_with_action")
    else if StrictSensitive(s, t) && Exfiltrates(s, t) then
      RuleDecision(Block, "sensitive_data_with_action")
    else if OtpMisuse(s, t) then RuleDecision(Block, "otp_exfil_or_bypass")
    else if s.whitelistIntent(t) then RuleDecision(Allow, "whitelisted_banking_intent")
    else RuleDecision(PassToModel, "no_rule_match")
  }

  /** An advisory phrasing does not excuse a sensitive token next to bypass or
      transaction wording. */
  lemma AdvisoryDoesNotExcuseBypass(s: Signals, text: string)
    requires !Blank(text)
    requires StrictSensitive(s, Strip(text)) && (s.bypassVerb(Strip(text)) || HasTxn(s, Strip(text)))
    ensures Prefilter(s, text).decision == Block
  {
  }

  /** An advisory question about a sensitive token or an OTP, with no bypass, transaction
      or bulk-extraction wording, is never blocked. */
  lemma AdvisoryQuestionFallsThrough(s: Signals, text: string)
    requires var t := Strip(text);
      s.advisoryQuestion(t) && !s.bypassVerb(t) && !HasTxn(s, t) && !s.dataExtraction(t)
    ensures Prefilter(s, text).decision != Block
  {
  }
}
