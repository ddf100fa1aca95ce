/** The alert dispatcher of the backend
    (project/backend/services/notification_service.py): which channels an
    alert goes to, the configuration guards of the two senders, and the plain
    e-mail template. The SMTP and Twilio transports are inputs that say
    whether the hand-over succeeded; what was handed over is kept in two
    outboxes. */
module NotificationService {
  import opened Common

  /** The environment the service reads at start-up. */
  datatype Config = Config(
    smtpHost: Option<string>,
    smtpUser: Option<string>,
    smtpPass: Option<string>,
    twilioSid: Option<string>,
    twilioToken: Option<string>,
    twilioPhone: Option<string>)

  /** The fields `send_churn_alert` reads from a user's settings; a missing
      flag reads as false, a missing threshold as None. */
  datatype AlertSettings = AlertSettings(
    threshold: Option<real>,
    emailEnabled: bool,
    emailAddress: Option<string>,
    smsEnabled: bool,
    phoneNumber: Option<string>)

  datatype Email = Email(to: string, probability: real)

  datatype Sms = Sms(to: string, probability: real)

  /** Where an alert goes. */
  datatype Plan = Plan(fires: bool, email: Option<string>, sms: Option<string>)

  /** `not all([smtp_host, smtp_user, smtp_pass])` fails. */
  predicate EmailConfigured(c: Config) {
    Truthy(c.smtpHost) && Truthy(c.smtpUser) && Truthy(c.smtpPass)
  }

  /** `prediction_data.get('probability', 0)` */
  function ProbabilityOf(probability: Option<real>): real {
    if probability.Some? then probability.value else 0.0
  }

  /** `float(notification_settings.get('threshold', 0.7))` */
  function ThresholdOf(s: AlertSettings): real {
    if s.threshold.Some? then s.threshold.value else 0.7
  }

  /** The early return `if probability < threshold: return`, then one channel
      per enabled flag with a non-empty address. */
  function AlertPlan(probability: Option<real>, s: AlertSettings): (p: Plan)
    ensures p.fires <==> ProbabilityOf(probability) >= ThresholdOf(s)
    ensures p.email.Some? <==> p.fires && s.emailEnabled && Truthy(s.emailAddress)
    ensures p.sms.Some? <==> p.fires && s.smsEnabled && Truthy(s.phoneNumber)
    ensures p.email.Some? ==> p.email == s.emailAddress
    ensures p.sms.Some? ==> p.sms == s.phoneNumber
  {
    var fires := !(ProbabilityOf(probability) < ThresholdOf(s));
    Plan(fires,
         if fires && s.emailEnabled && Truthy(s.emailAddress) then s.emailAddress else None,
         if fires && s.smsEnabled && Truthy(s.phoneNumber) then s.phoneNumber else None)
  }

  /** The defaults and the inclusive threshold: with nothing given nothing
      fires (0 < 0.7); a probability equal to the threshold fires. */
  lemma AlertThresholdInclusive(s: AlertSettings, p: real)
    ensures !AlertPlan(None, s.(threshold := None)).fires
    ensures AlertPlan(Some(0.7), s.(threshold := None)).fires
    ensures AlertPlan(Some(p), s.(threshold := Some(p))).fires
    ensures p < ThresholdOf(s) ==> AlertPlan(Some(p), s) == Plan(false, None, None)
  {
  }

  const PlainTemplateOpen := "<html><body><p>"
  const PlainTemplateClose := "</p></body></html>"

  /** `_create_email_template` when `prediction_data` is falsy. */
  function PlainTemplate(message: string): string {
    PlainTemplateOpen + message + PlainTemplateClose
  }

  /** The message sits unescaped between the fixed opening and closing tags,
      and can be read back from the template. */
  lemma PlainTemplateRoundTrip(message: string)
    ensures StartsWith(PlainTemplate(message), PlainTemplateOpen)
    ensures |PlainTemplate(message)| == |message| + 33
    ensures PlainTemplate(message)[|PlainTemplateOpen|..|PlainTemplate(message)| - |PlainTemplateClose|] == message
  {
    var t := PlainTemplate(message);
    assert t[..|PlainTemplateOpen|] == PlainTemplateOpen;
  }

  class Service {
    const config: Config
    /** `self.twilio_client` is set. */
    const hasSmsClient: bool
    var emailsSent: seq<Email>
    var smsSent: seq<Sms>

    /** `__init__`: a Twilio client exists when both credentials are set and
        constructing it did not fail (`clientStarts`). */
    constructor (config: Config, clientStarts: bool)
      ensures this.config == config
      ensures hasSmsClient <==> Truthy(config.twilioSid) && Truthy(config.twilioToken) && clientStarts
      ensures emailsSent == [] && smsSent == []
    {
      this.config := config;
      hasSmsClient := Truthy(config.twilioSid) && Truthy(config.twilioToken) && clientStarts;
      emailsSent := [];
      smsSent := [];
    }

    /** send_email_alert; `delivered` is what the SMTP exchange would report. */
    method SendEmailAlert(to: string, probability: real, delivered: bool) returns (sent: bool)
      modifies this`emailsSent
      ensures sent <==> EmailConfigured(config) && delivered
      ensures emailsSent == old(emailsSent) + (if sent then [Email(to, probability)] else [])
    {
      if !EmailConfigured(config) {
        return false;
      }
      if delivered {
        emailsSent := emailsSent + [Email(to, probability)];
      }
      return delivered;
    }

    /** send_sms_alert; `delivered` is what the Twilio call would report. */
    method SendSmsAlert(to: string, probability: real, delivered: bool) returns (sent: bool)
      modifies this`smsSent
      ensures sent <==> hasSmsClient && delivered
      ensures smsSent == old(smsSent) + (if sent then [Sms(to, probability)] else [])
    {
      if !hasSmsClient {
        return false;
      }
      if delivered {
        smsSent := smsSent + [Sms(to, probability)];
      }
      return delivered;
    }

    /** send_churn_alert: each channel of the plan is tried once. */
    method SendChurnAlert(probability: Option<real>, s: AlertSettings, emailDelivered: bool, smsDelivered: bool)
      modifies this`emailsSent, this`smsSent
      ensures var p := AlertPlan(probability, s);
        && emailsSent == old(emailsSent)
             + (if p.email.Some? && EmailConfigured(config) && emailDelivered
                then [Email(p.email.value, ProbabilityOf(probability))] else [])
        && smsSent == old(smsSent)
             + (if p.sms.Some? && hasSmsClient && smsDelivered
                then [Sms(p.sms.value, ProbabilityOf(probability))] else [])
    {
      var p := ProbabilityOf(probability);
      if p < ThresholdOf(s) {
        return;
      }
      if s.emailEnabled && Truthy(s.emailAddress) {
        var _ := SendEmailAlert(s.emailAddress.value, p, emailDelivered);
      }
      if s.smsEnabled && Truthy(s.phoneNumber) {
        var _ := SendSmsAlert(s.phoneNumber.value, p, smsDelivered);
      }
    }
  }
}
