/**
 * The contact section: the first address, email and phone entries fill the
 * footer and the contact page; the contact form and the footer subscription
 * form package their fields into a message and send it.
 */
module ContactIntegration {
  import opened Js
  import opened Seqs
  import opened ApiServices

  /** `contactInfo.find(item => item.type === kind)`: an entry of that type, or nothing when there is none. */
  function FindByType(entries: seq<ContactEntry>, kind: string): (r: Option<ContactEntry>)
    ensures r.Some? ==> r.value in entries && r.value.kind == Some(kind)
    ensures r.None? ==> forall e :: e in entries ==> e.kind != Some(kind)
  {
    if entries == [] then None
    else if entries[0].kind == Some(kind) then Some(entries[0])
    else FindByType(entries[1..], kind)
  }

  /** `find` yields the first entry of the type, or nothing when no entry has it. */
  lemma {:induction false} FindByTypeIsFirst(entries: seq<ContactEntry>, kind: string)
    ensures var r := FindByType(entries, kind);
      r.Some? ==>
        exists i :: 0 <= i < |entries| && entries[i] == r.value && entries[i].kind == Some(kind) &&
          forall j :: 0 <= j < i ==> entries[j].kind != Some(kind)
    ensures FindByType(entries, kind).None? ==> forall i :: 0 <= i < |entries| ==> entries[i].kind != Some(kind)
  {
    if entries != [] && entries[0].kind != Some(kind) {
      var rest := entries[1..];
      FindByTypeIsFirst(rest, kind);
      var r := FindByType(rest, kind);
      if r.Some? {
        var i :| 0 <= i < |rest| && rest[i] == r.value && rest[i].kind == Some(kind) &&
                 forall j :: 0 <= j < i ==> rest[j].kind != Some(kind);
        assert entries[i + 1] == r.value;
        forall j | 0 <= j < i + 1 ensures entries[j].kind != Some(kind) {
          if j > 0 { assert entries[j] == rest[j - 1]; }
        }
      } else {
        forall i | 0 <= i < |entries| ensures entries[i].kind != Some(kind) {
          if i > 0 { assert entries[i] == rest[i - 1]; }
        }
      }
    }
  }

  predicate HasType(kind: string, e: ContactEntry) {
    e.kind == Some(kind)
  }

  /** `find` agrees with taking the head of `filter`: the first entry of the type, or nothing. */
  lemma {:induction false} FindByTypeIsFirstOfFilter(entries: seq<ContactEntry>, kind: string)
    ensures var matches := Filter(e => HasType(kind, e), entries);
            FindByType(entries, kind) == if matches == [] then None else Some(matches[0])
  {
    if entries != [] {
      FindByTypeIsFirstOfFilter(entries[1..], kind);
    }
  }

  /** What a page element shows: text, or a link with its text. */
  datatype Content = Text(text: Option<string>) | Anchor(href: string, text: Option<string>)

  /**
   * The elements the contact information is written into: the footer's
   * lists of address paragraphs and email and phone links, and the contact
   * page's three single elements (None when the page has no such element).
   */
  class ContactPage {
    const footerAddresses: array<Content>
    const footerEmails: array<Content>
    const footerPhones: array<Content>
    var contactAddress: Option<Content>
    var contactEmail: Option<Content>
    var contactPhone: Option<Content>

    /** The three footer lists are different element lists. */
    predicate Valid()
      reads this
    {
      footerAddresses != footerEmails && footerEmails != footerPhones && footerAddresses != footerPhones
    }

    constructor (addresses: array<Content>, emails: array<Content>, phones: array<Content>,
                 address: Option<Content>, email: Option<Content>, phone: Option<Content>)
      requires addresses != emails && emails != phones && addresses != phones
      ensures Valid()
      ensures footerAddresses == addresses && footerEmails == emails && footerPhones == phones
      ensures contactAddress == address && contactEmail == email && contactPhone == phone
    {
      footerAddresses, footerEmails, footerPhones := addresses, emails, phones;
      contactAddress, contactEmail, contactPhone := address, email, phone;
    }
  }

  /** `elements.forEach(element => { ...set it to c... })`. */
  method FillAll(elements: array<Content>, c: Content)
    modifies elements
    ensures forall i :: 0 <= i < elements.Length ==> elements[i] == c
  {
    for i := 0 to elements.Length
      invariant forall k :: 0 <= k < i ==> elements[k] == c
    {
      elements[i] := c;
    }
  }

  /** The single element, when present, now shows `c`. */
  function Replace(element: Option<Content>, c: Content): Option<Content> {
    if element.Some? then Some(c) else None
  }

  /** A footer or contact-page link: the scheme (`mailto:` or `tel:`) followed by the value, showing the value. */
  function Link(scheme: string, value: Option<string>): (c: Content)
    ensures c.Anchor? && c.text == value
    ensures |c.href| >= |scheme| && c.href[..|scheme|] == scheme && c.href[|scheme|..] == Interpolate(value)
  {
    Anchor(scheme + Interpolate(value), value)
  }

  /**
   * `displayContactInfo`: for each of address, email and phone, the first
   * entry of that type fills the footer elements and the contact page
   * element; a type with no entry leaves its elements as they were. Returns
   * what is handed to `updateContactForm`: the email entry's value, or `''`
   * when there is no email entry.
   */
  method DisplayContactInfo(page: ContactPage, entries: seq<ContactEntry>) returns (recipientEmail: Option<string>)
    requires page.Valid()
    modifies page, page.footerAddresses, page.footerEmails, page.footerPhones
    ensures var address := FindByType(entries, "address");
      (address.Some? ==>
        (forall i :: 0 <= i < page.footerAddresses.Length ==> page.footerAddresses[i] == Text(address.value.value)) &&
        page.contactAddress == Replace(old(page.contactAddress), Text(address.value.value))) &&
      (address.None? ==>
        page.footerAddresses[..] == old(page.footerAddresses[..]) && page.contactAddress == old(page.contactAddress))
    ensures var email := FindByType(entries, "email");
      (email.Some? ==>
        (forall i :: 0 <= i < page.footerEmails.Length ==> page.footerEmails[i] == Link("mailto:", email.value.value)) &&
        page.contactEmail == Replace(old(page.contactEmail), Link("mailto:", email.value.value))) &&
      (email.None? ==>
        page.footerEmails[..] == old(page.footerEmails[..]) && page.contactEmail == old(page.contactEmail))
    ensures var phone := FindByType(entries, "phone");
      (phone.Some? ==>
        (forall i :: 0 <= i < page.footerPhones.Length ==> page.footerPhones[i] == Link("tel:", phone.value.value)) &&
        page.contactPhone == Replace(old(page.contactPhone), Link("tel:", phone.value.value))) &&
      (phone.None? ==>
        page.footerPhones[..] == old(page.footerPhones[..]) && page.contactPhone == old(page.contactPhone))
    ensures var email := FindByType(entries, "email");
      recipientEmail == if email.Some? then email.value.value else Some("")
  {
    var address := FindByType(entries, "address");
    var email := FindByType(entries, "email");
    var phone := FindByType(entries, "phone");
    if address.Some? {
      FillAll(page.footerAddresses, Text(address.value.value));
      page.contactAddress := Replace(page.contactAddress, Text(address.value.value));
    }
    if email.Some? {
      FillAll(page.footerEmails, Link("mailto:", email.value.value));
      page.contactEmail := Replace(page.contactEmail, Link("mailto:", email.value.value));
    }
    if phone.Some? {
      FillAll(page.footerPhones, Link("tel:", phone.value.value));
      page.contactPhone := Replace(page.contactPhone, Link("tel:", phone.value.value));
    }
    recipientEmail := if email.Some? then email.value.value else Some("");
  }

  /**
   * `initContact`: the information is displayed, and the contact form gets
   * its handler, only when the fetched list is non-empty. Returns whether
   * that happened and the recipient handed to the form.
   */
  method InitContact(page: ContactPage, resp: ListResponse<RawContactEntry>)
    returns (displayed: bool, recipientEmail: Option<string>)
    requires page.Valid()
    modifies page, page.footerAddresses, page.footerEmails, page.footerPhones
    ensures displayed <==> |FetchContact(resp)| > 0
    ensures !displayed ==>
      unchanged(page) && unchanged(page.footerAddresses) && unchanged(page.footerEmails) && unchanged(page.footerPhones)
    ensures displayed ==> var address := FindByType(FetchContact(resp), "address");
      (address.Some? ==>
        (forall i :: 0 <= i < page.footerAddresses.Length ==> page.footerAddresses[i] == Text(address.value.value)) &&
        page.contactAddress == Replace(old(page.contactAddress), Text(address.value.value))) &&
      (address.None? ==>
        page.footerAddresses[..] == old(page.footerAddresses[..]) && page.contactAddress == old(page.contactAddress))
    ensures displayed ==> var email := FindByType(FetchContact(resp), "email");
      (email.Some? ==>
        (forall i :: 0 <= i < page.footerEmails.Length ==> page.footerEmails[i] == Link("mailto:", email.value.value)) &&
        page.contactEmail == Replace(old(page.contactEmail), Link("mailto:", email.value.value))) &&
      (email.None? ==>
        page.footerEmails[..] == old(page.footerEmails[..]) && page.contactEmail == old(page.contactEmail))
    ensures displayed ==> var phone := FindByType(FetchContact(resp), "phone");
      (phone.Some? ==>
        (forall i :: 0 <= i < page.footerPhones.Length ==> page.footerPhones[i] == Link("tel:", phone.value.value)) &&
        page.contactPhone == Replace(old(page.contactPhone), Link("tel:", phone.value.value))) &&
      (phone.None? ==>
        page.footerPhones[..] == old(page.footerPhones[..]) && page.contactPhone == old(page.contactPhone))
    ensures displayed ==>
      var email := FindByType(FetchContact(resp), "email");
      recipientEmail == if email.Some? then email.value.value else Some("")
  {
    var entries := FetchContact(resp);
    displayed := |entries| > 0;
    if displayed {
      recipientEmail := DisplayContactInfo(page, entries);
    } else {
      recipientEmail := None;
    }
  }

  // ----- the two forms -----

  /** A message sent to `/messages`. */
  datatype Message =
    | ContactMessage(firstName: string, lastName: string, email: string, phone: string, message: string,
                     recipientEmail: string)
    | Subscription(email: string, kind: string)

  /** The contact form's inputs; None when the form lacks that input. */
  datatype ContactFields = ContactFields(
    yourName: Option<string>, lastName: Option<string>, yourEmail: Option<string>,
    subject: Option<string>, message: Option<string>)

  /** Reading `.value` of a missing input throws. */
  predicate AllInputsPresent(f: ContactFields) {
    f.yourName.Some? && f.lastName.Some? && f.yourEmail.Some? && f.subject.Some? && f.message.Some?
  }

  /**
   * The contact message: the inputs by name, `phone` taken from the input
   * named "Subject", and `recipientEmail || ''`.
   */
  function ContactMessageOf(f: ContactFields, recipientEmail: Option<string>): (m: Message)
    requires AllInputsPresent(f)
    ensures m.ContactMessage?
    ensures m.firstName == f.yourName.value && m.lastName == f.lastName.value && m.email == f.yourEmail.value
    ensures m.phone == f.subject.value && m.message == f.message.value
    ensures TruthyStr(recipientEmail) ==> m.recipientEmail == recipientEmail.value
    ensures !TruthyStr(recipientEmail) ==> m.recipientEmail == ""
  {
    ContactMessage(f.yourName.value, f.lastName.value, f.yourEmail.value, f.subject.value, f.message.value,
                   OrStr(recipientEmail, Some("")).value)
  }

  /** Where a form's submission stands. `Stuck`: the handler threw before sending, with the button still disabled. */
  datatype Phase = Idle | Sending | Stuck

  const SendingLabel := "Sending..."
  const DefaultLabel := "Send Message"
  const ContactSentAlert := "Your message has been sent successfully!"
  const ContactFailedAlert := "Failed to send message. Please try again later."
  const SubscribedAlert := "Thank you for subscribing!"
  const SubscribeFailedAlert := "Failed to subscribe. Please try again later."

  /** The contact form, its submit button (if it has one) and the alerts shown. */
  class ContactForm {
    const hasButton: bool
    var buttonLabel: string
    var buttonDisabled: bool
    var fields: ContactFields
    /** What `form.reset()` restores. */
    const initialFields: ContactFields
    /** `originalText` of the pending submission. */
    var savedLabel: string
    var phase: Phase
    var alerts: seq<string>

    constructor (hasButton: bool, buttonText: string, fields: ContactFields)
      ensures this.hasButton == hasButton && buttonLabel == buttonText && !buttonDisabled
      ensures this.fields == fields && initialFields == fields
      ensures phase == Idle && alerts == []
    {
      this.hasButton := hasButton;
      buttonLabel, buttonDisabled := buttonText, false;
      this.fields, initialFields := fields, fields;
      savedLabel := DefaultLabel;
      phase, alerts := Idle, [];
    }

    /**
     * The synchronous part of the submit handler: the button is disabled
     * and shows "Sending...", its label saved; then the inputs are read. A
     * missing input throws (the button stays disabled); otherwise the
     * message to send is returned.
     */
    method Submit(recipientEmail: Option<string>) returns (sent: Option<Message>)
      requires phase != Sending
      modifies this
      ensures hasButton ==> savedLabel == old(buttonLabel) && buttonLabel == SendingLabel && buttonDisabled
      ensures !hasButton ==> savedLabel == DefaultLabel && buttonLabel == old(buttonLabel) && buttonDisabled == old(buttonDisabled)
      ensures phase == (if AllInputsPresent(fields) then Sending else Stuck)
      ensures sent == if AllInputsPresent(fields) then Some(ContactMessageOf(fields, recipientEmail)) else None
      ensures fields == old(fields) && alerts == old(alerts)
    {
      savedLabel := DefaultLabel;
      if hasButton {
        savedLabel := buttonLabel;
        buttonLabel := SendingLabel;
        buttonDisabled := true;
      }
      if !AllInputsPresent(fields) {
        phase := Stuck;
        return None;
      }
      sent := Some(ContactMessageOf(fields, recipientEmail));
      phase := Sending;
    }

    /**
     * The promise callbacks: on success an alert and `form.reset()`; on
     * failure an alert only; in both cases the button gets its label back
     * and is enabled again.
     */
    method Resolve<T>(outcome: Result<Envelope<T>>)
      requires phase == Sending
      modifies this
      ensures phase == Idle
      ensures outcome.Ok? ==> fields == initialFields && alerts == old(alerts) + [ContactSentAlert]
      ensures outcome.Err? ==> fields == old(fields) && alerts == old(alerts) + [ContactFailedAlert]
      ensures hasButton ==> buttonLabel == old(savedLabel) && !buttonDisabled
      ensures !hasButton ==> buttonLabel == old(buttonLabel) && buttonDisabled == old(buttonDisabled)
    {
      if outcome.Ok? {
        alerts := alerts + [ContactSentAlert];
        fields := initialFields;
      } else {
        alerts := alerts + [ContactFailedAlert];
      }
      if hasButton {
        buttonLabel := savedLabel;
        buttonDisabled := false;
      }
      phase := Idle;
    }
  }

  /**
   * One whole submission of the contact form, answered by `resp`. With every
   * input present, the button ends enabled with the label it had before, and
   * the form is reset exactly when `sendMessage` resolves. With an input
   * missing, nothing is sent and the button stays disabled on "Sending...".
   */
  method HandleContactSubmit<T>(form: ContactForm, recipientEmail: Option<string>, resp: Response<T>)
    returns (sent: Option<Message>)
    requires form.phase != Sending
    modifies form
    ensures sent.Some? <==> AllInputsPresent(old(form.fields))
    ensures sent.Some? ==> sent.value == ContactMessageOf(old(form.fields), recipientEmail)
    ensures sent.Some? ==> form.phase == Idle
    ensures sent.Some? && form.hasButton ==> form.buttonLabel == old(form.buttonLabel) && !form.buttonDisabled
    ensures sent.Some? && SendMessage(resp).Ok? ==>
      form.fields == form.initialFields && form.alerts == old(form.alerts) + [ContactSentAlert]
    ensures sent.Some? && SendMessage(resp).Err? ==>
      form.fields == old(form.fields) && form.alerts == old(form.alerts) + [ContactFailedAlert]
    ensures sent.None? ==> form.phase == Stuck && form.fields == old(form.fields) && form.alerts == old(form.alerts)
    ensures sent.None? && form.hasButton ==> form.buttonLabel == SendingLabel && form.buttonDisabled
  {
    sent := form.Submit(recipientEmail);
    if sent.Some? {
      form.Resolve(SendMessage(resp));
    }
  }

  /** The footer subscription form, its submit button (if it has one) and the alerts shown. */
  class SubscriptionForm {
    const hasButton: bool
    var buttonDisabled: bool
    /** The `email` input's value; None when the form has no such input. */
    var email: Option<string>
    const initialEmail: Option<string>
    var phase: Phase
    var alerts: seq<string>

    constructor (hasButton: bool, email: Option<string>)
      ensures this.hasButton == hasButton && !buttonDisabled
      ensures this.email == email && initialEmail == email
      ensures phase == Idle && alerts == []
    {
      this.hasButton := hasButton;
      buttonDisabled := false;
      this.email, initialEmail := email, email;
      phase, alerts := Idle, [];
    }

    /** The synchronous part: disable the button, read the input, build `{email, type: 'subscription'}`. */
    method Submit() returns (sent: Option<Message>)
      requires phase != Sending
      modifies this
      ensures buttonDisabled == (hasButton || old(buttonDisabled))
      ensures phase == (if email.Some? then Sending else Stuck)
      ensures sent == if email.Some? then Some(Subscription(email.value, "subscription")) else None
      ensures email == old(email) && alerts == old(alerts)
    {
      if hasButton {
        buttonDisabled := true;
      }
      if email.None? {
        phase := Stuck;
        return None;
      }
      sent := Some(Subscription(email.value, "subscription"));
      phase := Sending;
    }

    /** The promise callbacks: an alert, `form.reset()` on success only, and the button enabled again. */
    method Resolve<T>(outcome: Result<Envelope<T>>)
      requires phase == Sending
      modifies this
      ensures phase == Idle
      ensures outcome.Ok? ==> email == initialEmail && alerts == old(alerts) + [SubscribedAlert]
      ensures outcome.Err? ==> email == old(email) && alerts == old(alerts) + [SubscribeFailedAlert]
      ensures buttonDisabled == (!hasButton && old(buttonDisabled))
    {
      if outcome.Ok? {
        alerts := alerts + [SubscribedAlert];
        email := initialEmail;
      } else {
        alerts := alerts + [SubscribeFailedAlert];
      }
      if hasButton {
        buttonDisabled := false;
      }
      phase := Idle;
    }
  }

  /**
   * One whole submission of the footer form, answered by `resp`: the record
   * sent is exactly `{email, type: 'subscription'}`, the form is reset only
   * when `sendMessage` resolves, and a present button ends enabled.
   */
  method HandleSubscribe<T>(form: SubscriptionForm, resp: Response<T>) returns (sent: Option<Message>)
    requires form.phase != Sending
    modifies form
    ensures sent.Some? <==> old(form.email).Some?
    ensures sent.Some? ==> sent.value == Subscription(old(form.email).value, "subscription")
    ensures sent.Some? ==> form.phase == Idle
    ensures sent.Some? && form.hasButton ==> !form.buttonDisabled
    ensures sent.Some? && SendMessage(resp).Ok? ==>
      form.email == form.initialEmail && form.alerts == old(form.alerts) + [SubscribedAlert]
    ensures sent.Some? && SendMessage(resp).Err? ==>
      form.email == old(form.email) && form.alerts == old(form.alerts) + [SubscribeFailedAlert]
    ensures sent.None? ==> form.phase == Stuck && form.email == old(form.email) && form.alerts == old(form.alerts)
    ensures sent.None? && form.hasButton ==> form.buttonDisabled
  {
    sent := form.Submit();
    if sent.Some? {
      form.Resolve(SendMessage(resp));
    }
  }
}
