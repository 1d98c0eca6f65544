/**
 * The profile page's handlers: saving the name and the billing data, the plan
 * change with its consent step, the consent confirmation and its withdrawal.
 * Each builds a patch for `updateUser` and then sets the page's own fields.
 */
module Profile {
  import opened Wrappers
  import opened Text
  import opened Types
  import opened Api
  import opened AppContext

  const ProfileSaved := "Perfil guardado correctamente."
  const BillingSaved := "Datos de facturación guardados."
  const DowngradedToFree := "Plan actualizado a Gratis."
  const PlanUpdated := "Plan actualizado correctamente."
  const ConsentConfirmed := "Consentimiento confirmado y plan actualizado."
  const ConsentWithdrawn := "Consentimiento retirado y datos eliminados."

  /** `{ plan: 'free', billing: undefined, consent: false, consentDate: undefined }`,
      sent both by a downgrade and by a withdrawal of consent. */
  const ClearingPatch := NoChange.(plan := Some(Free), billing := SetUndefined, consent := Some(false),
                                   consentDate := SetUndefined)

  function PlanPatch(plan: PlanType): Patch {
    NoChange.(plan := Some(plan))
  }

  /** `{ plan: pendingPlan, consent: true, consentDate: now }`. */
  function ConsentPatch(plan: PlanType, now: string): Patch {
    NoChange.(plan := Some(plan), consent := Some(true), consentDate := SetTo(now))
  }

  /** `formData.name?.trim() || user.name`. */
  function NameToSave(formName: Option<string>, current: string): (n: string)
    ensures formName.Some? && Trim(formName.value) != "" ==> n == Trim(formName.value)
    ensures formName.None? || Trim(formName.value) == "" ==> n == current
  {
    if formName.Some? && Trim(formName.value) != "" then Trim(formName.value) else current
  }

  // ---------------------------------------------------------------- the plan/consent rule

  /** The rule the page keeps in the local copy: a free account has no billing,
      no consent and no consent date; a paid one has consent. The server does not
      enforce it. */
  predicate ConsentRule(u: UserData) {
    && (u.plan == Free ==> u.billing.None? && !u.consent && u.consentDate.None?)
    && (u.plan != Free ==> u.consent)
  }

  /** The clearing patch establishes the rule in the local merge, from any user. */
  lemma ClearingEstablishesRule(u: UserData)
    ensures ConsentRule(Spread(u, ClearingPatch))
    ensures Spread(u, ClearingPatch).billing.None? && Spread(u, ClearingPatch).consentDate.None?
  {
  }

  /** Confirming consent for a paid plan establishes the rule. */
  lemma ConsentEstablishesRule(u: UserData, plan: PlanType, now: string)
    requires plan != Free
    ensures ConsentRule(Spread(u, ConsentPatch(plan, now)))
  {
  }

  /** A bare plan patch is only sent when consent is already given; then it keeps the rule. */
  lemma PaidPlanKeepsRule(u: UserData, plan: PlanType)
    requires ConsentRule(u) && u.consent && plan != Free
    ensures ConsentRule(Spread(u, PlanPatch(plan)))
  {
  }

  /** The billing patch keeps the rule while the plan is paid, which is the only
      time the page offers the billing form. */
  lemma BillingKeepsRule(u: UserData, b: Billing)
    requires ConsentRule(u) && u.plan != Free
    ensures ConsentRule(Spread(u, NoChange.(billing := SetTo(b))))
  {
  }

  // ---------------------------------------------------------------- the page

  class ProfilePage {
    var editing: bool
    var formName: Option<string>
    var billingDraft: Billing
    var showConsentModal: bool
    var pendingPlan: Option<PlanType>
    var consentAccepted: bool
    var statusMessage: string
    var isSavingProfile: bool
    var isSavingBilling: bool
    const session: Session

    /** The page only renders its handlers for a logged-in user. */
    ghost predicate Ready()
      reads this, session, session.api, session.storage
    {
      session.Valid() && session.user.Some?
    }

    constructor (session: Session)
      requires session.user.Some?
      ensures this.session == session
      ensures !editing && !showConsentModal && pendingPlan.None? && !consentAccepted && statusMessage == ""
      ensures !isSavingProfile && !isSavingBilling
      ensures formName == Some(session.user.value.name)
      ensures billingDraft == session.user.value.billing.GetOr(EmptyBilling)
    {
      this.session := session;
      editing := false;
      formName := Some(session.user.value.name);
      billingDraft := session.user.value.billing.GetOr(EmptyBilling);
      showConsentModal := false;
      pendingPlan := None;
      consentAccepted := false;
      statusMessage := "";
      isSavingProfile := false;
      isSavingBilling := false;
    }

    /** `setSuccess`: clear the session's error and show the message. */
    method SetSuccess(message: string)
      modifies this, session
      ensures session.State() == old(session.State()).(lastError := None)
      ensures statusMessage == message
      ensures editing == old(editing) && billingDraft == old(billingDraft) && pendingPlan == old(pendingPlan)
      ensures showConsentModal == old(showConsentModal) && consentAccepted == old(consentAccepted)
      ensures isSavingProfile == old(isSavingProfile) && isSavingBilling == old(isSavingBilling)
      ensures formName == old(formName)
    {
      session.ClearLastError();
      statusMessage := message;
    }

    /** Sends `patch`; on success shows `message`, on failure clears the status. */
    method Send(patch: Patch, outcome: RemoteOutcome, message: string) returns (sent: Option<RequestInit>, ok: bool)
      requires Ready()
      modifies this, session, session.storage
      ensures session.Valid()
      ensures var after := AfterUpdate(old(session.State()), patch, outcome);
        ok ==> session.State() == after.(lastError := None)
      ensures var after := AfterUpdate(old(session.State()), patch, outcome);
        !ok ==> session.State() == after
      ensures ok <==> !(HasId(old(session.user).value) && outcome.Rejected?)
      ensures statusMessage == if ok then message else ""
      ensures sent == old(session.Request(patch))
      ensures sent.Some? <==> HasId(old(session.user).value)
      ensures editing == old(editing) && billingDraft == old(billingDraft) && pendingPlan == old(pendingPlan)
      ensures showConsentModal == old(showConsentModal) && consentAccepted == old(consentAccepted)
      ensures isSavingProfile == old(isSavingProfile) && isSavingBilling == old(isSavingBilling)
      ensures formName == old(formName)
    {
      var raised;
      sent, raised := session.UpdateUser(patch, outcome);
      ok := raised.None?;
      if ok {
        SetSuccess(message);
      } else {
        statusMessage := "";
      }
    }

    /** `saveProfileData`: send the trimmed name, or keep the current one; leave
        edit mode only when the save went through. */
    method SaveProfileData(outcome: RemoteOutcome) returns (sent: Option<RequestInit>)
      requires Ready()
      modifies this, session, session.storage
      ensures session.Valid()
      ensures var patch := NoChange.(name := Some(NameToSave(old(formName), old(session.user).value.name)));
        var failed := HasId(old(session.user).value) && outcome.Rejected?;
        && session.State() == (var after := AfterUpdate(old(session.State()), patch, outcome);
                               if failed then after else after.(lastError := None))
        && editing == (if failed then old(editing) else false)
        && statusMessage == (if failed then "" else ProfileSaved)
        && sent == old(session.Request(patch))
      ensures !isSavingProfile
      ensures unchanged(this`formName, this`billingDraft, this`showConsentModal, this`pendingPlan,
                        this`consentAccepted, this`isSavingBilling)
    {
      isSavingProfile := true;
      var name := NameToSave(formName, session.user.value.name);
      var ok;
      sent, ok := Send(NoChange.(name := Some(name)), outcome, ProfileSaved);
      if ok {
        editing := false;
      }
      isSavingProfile := false;
    }

    /** `saveBillingData`: send the billing draft as a whole. */
    method SaveBillingData(outcome: RemoteOutcome) returns (sent: Option<RequestInit>)
      requires Ready()
      modifies this, session, session.storage
      ensures session.Valid()
      ensures var failed := HasId(old(session.user).value) && outcome.Rejected?;
        && session.State() == (var after := AfterUpdate(old(session.State()), NoChange.(billing := SetTo(old(billingDraft))), outcome);
                               if failed then after else after.(lastError := None))
        && statusMessage == (if failed then "" else BillingSaved)
      ensures sent == old(session.Request(NoChange.(billing := SetTo(billingDraft))))
      ensures !isSavingBilling
      ensures unchanged(this`editing, this`formName, this`billingDraft, this`showConsentModal, this`pendingPlan,
                        this`consentAccepted, this`isSavingProfile)
    {
      isSavingBilling := true;
      var ok;
      sent, ok := Send(NoChange.(billing := SetTo(billingDraft)), outcome, BillingSaved);
      isSavingBilling := false;
    }

    /** `handlePlanChange(newPlan)`; `confirmed` is the answer to the downgrade prompt. */
    method HandlePlanChange(newPlan: PlanType, confirmed: bool, outcome: RemoteOutcome) returns (sent: Option<RequestInit>)
      requires Ready()
      modifies this, session, session.storage
      ensures session.Valid()
      ensures unchanged(this`editing, this`formName, this`isSavingProfile, this`isSavingBilling)
      ensures newPlan == Free && !confirmed ==>
        sent.None? && session.State() == old(session.State()) && unchanged(this)
      ensures newPlan == Free && confirmed ==>
        var failed := HasId(old(session.user).value) && outcome.Rejected?;
        && session.State() == (var after := AfterUpdate(old(session.State()), ClearingPatch, outcome);
                               if failed then after else after.(lastError := None))
        && sent == old(session.Request(ClearingPatch))
        && billingDraft == (if failed then old(billingDraft) else EmptyBilling)
        && statusMessage == (if failed then "" else DowngradedToFree)
        && unchanged(this`showConsentModal, this`pendingPlan, this`consentAccepted)
      ensures newPlan != Free ==> pendingPlan == Some(newPlan) && billingDraft == old(billingDraft)
      ensures newPlan != Free && !old(session.user).value.consent ==>
        sent.None? && session.State() == old(session.State())
        && !consentAccepted && showConsentModal && statusMessage == old(statusMessage)
      ensures newPlan != Free && old(session.user).value.consent ==>
        var failed := HasId(old(session.user).value) && outcome.Rejected?;
        && session.State() == (var after := AfterUpdate(old(session.State()), PlanPatch(newPlan), outcome);
                               if failed then after else after.(lastError := None))
        && sent == old(session.Request(PlanPatch(newPlan)))
        && statusMessage == (if failed then "" else PlanUpdated)
        && unchanged(this`showConsentModal, this`consentAccepted)
    {
      sent := None;
      if newPlan == Free {
        if confirmed {
          var ok;
          sent, ok := Send(ClearingPatch, outcome, DowngradedToFree);
          if ok {
            billingDraft := EmptyBilling;
          }
        }
      } else {
        pendingPlan := Some(newPlan);
        if !session.user.value.consent {
          consentAccepted := false;
          showConsentModal := true;
        } else {
          var ok;
          sent, ok := Send(PlanPatch(newPlan), outcome, PlanUpdated);
        }
      }
    }

    /** `confirmConsent`: close the modal and, if a plan is pending, send it with
        consent and its date. The pending plan is kept. */
    method ConfirmConsent(now: string, outcome: RemoteOutcome) returns (sent: Option<RequestInit>)
      requires Ready()
      modifies this, session, session.storage
      ensures session.Valid()
      ensures !showConsentModal
      ensures unchanged(this`editing, this`formName, this`billingDraft, this`pendingPlan, this`consentAccepted,
                        this`isSavingProfile, this`isSavingBilling)
      ensures old(pendingPlan).None? ==>
        sent.None? && session.State() == old(session.State()) && statusMessage == old(statusMessage)
      ensures old(pendingPlan).Some? ==>
        var failed := HasId(old(session.user).value) && outcome.Rejected?;
        && session.State() == (var after := AfterUpdate(old(session.State()), ConsentPatch(old(pendingPlan).value, now), outcome);
                               if failed then after else after.(lastError := None))
        && sent == old(session.Request(ConsentPatch(pendingPlan.value, now)))
        && statusMessage == (if failed then "" else ConsentConfirmed)
    {
      sent := None;
      showConsentModal := false;
      if pendingPlan.Some? {
        var ok;
        sent, ok := Send(ConsentPatch(pendingPlan.value, now), outcome, ConsentConfirmed);
      }
    }

    /** `withdrawConsent`; `confirmed` is the answer to its prompt. */
    method WithdrawConsent(confirmed: bool, outcome: RemoteOutcome) returns (sent: Option<RequestInit>)
      requires Ready()
      modifies this, session, session.storage
      ensures session.Valid()
      ensures unchanged(this`editing, this`formName, this`showConsentModal, this`pendingPlan, this`consentAccepted,
                        this`isSavingProfile, this`isSavingBilling)
      ensures !confirmed ==> sent.None? && session.State() == old(session.State()) && unchanged(this)
      ensures confirmed ==>
        var failed := HasId(old(session.user).value) && outcome.Rejected?;
        && session.State() == (var after := AfterUpdate(old(session.State()), ClearingPatch, outcome);
                               if failed then after else after.(lastError := None))
        && sent == old(session.Request(ClearingPatch))
        && billingDraft == (if failed then old(billingDraft) else EmptyBilling)
        && statusMessage == (if failed then "" else ConsentWithdrawn)
    {
      sent := None;
      if confirmed {
        var ok;
        sent, ok := Send(ClearingPatch, outcome, ConsentWithdrawn);
        if ok {
          billingDraft := EmptyBilling;
        }
      }
    }
  }
}
