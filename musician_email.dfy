/** `requestMusicianByEmail`: a request e-mail drafted to a musician's contact address. */
module MusicianEmail {
  import opened Basics
  import opened Text
  import opened Json
  import opened Entities

  /** The request details the committee typed in; any of them may be missing. */
  datatype MailDetails = MailDetails(eventType: Value, eventDate: Value, requesterName: Value, contactEmail: Value,
                                     notes: Value)

  /** The details with every gap filled by its placeholder. */
  datatype Filled = Filled(eventType: string, eventDate: string, requesterName: string, contactEmail: string,
                           notes: string)

  /** The draft before URL encoding: recipient, subject and body. */
  datatype EmailDraft = EmailDraft(to: string, subject: string, body: string)

  function Fill(details: MailDetails): (f: Filled)
    ensures f.eventType != "" && f.eventDate != "" && f.requesterName != "" && f.contactEmail != "" && f.notes != ""
    ensures Truthy(details.eventType) ==> f.eventType == AsText(details.eventType)
    ensures !Truthy(details.eventType) ==> f.eventType == "Feast/Holy Day"
    ensures Truthy(details.eventDate) ==> f.eventDate == AsText(details.eventDate)
    ensures Truthy(details.requesterName) ==> f.requesterName == AsText(details.requesterName)
    ensures Truthy(details.contactEmail) ==> f.contactEmail == AsText(details.contactEmail)
    ensures Truthy(details.notes) ==> f.notes == AsText(details.notes)
    ensures !Truthy(details.eventDate) ==> f.eventDate == "TBC"
    ensures !Truthy(details.requesterName) ==> f.requesterName == "Community member"
    ensures !Truthy(details.contactEmail) ==> f.contactEmail == "Not provided"
    ensures !Truthy(details.notes) ==> f.notes == "No additional notes"
  {
    Filled(
      OrText(details.eventType, "Feast/Holy Day"),
      OrText(details.eventDate, "TBC"),
      OrText(details.requesterName, "Community member"),
      OrText(details.contactEmail, "Not provided"),
      OrText(details.notes, "No additional notes"))
  }

  function Subject(f: Filled): string {
    "Music request for upcoming " + f.eventType
  }

  function Body(name: string, f: Filled): string {
    "Hi " + name + ",\n\n" +
    "I'd love to request your music support for an upcoming " + f.eventType + ".\n\n" +
    "Date: " + f.eventDate + "\n" +
    "From: " + f.requesterName + "\n" +
    "Contact: " + f.contactEmail + "\n\n" +
    "Details:\n" + f.notes + "\n\n" +
    "Blessings,"
  }

  /** A contact counts as an e-mail address when it is present and contains '@'. */
  function DraftFor(musician: Musician, details: MailDetails): (d: Option<EmailDraft>)
    ensures d.None? <==> musician.contact.None? || '@' !in musician.contact.value
    ensures d.Some? ==> d.value.to == musician.contact.value && Contains(d.value.to, "@")
    ensures d.Some? ==> d.value.subject == Subject(Fill(details)) && d.value.body == Body(musician.name, Fill(details))
  {
    if musician.contact.None? || musician.contact.value == "" then None
    else
      ContainsChar(musician.contact.value, '@');
      if !Contains(musician.contact.value, "@") then None
      else Some(EmailDraft(musician.contact.value, Subject(Fill(details)), Body(musician.name, Fill(details))))
  }

  /** With no details at all the draft reads entirely from placeholders. */
  lemma AllPlaceholders(musician: Musician)
    requires musician.contact.Some? && '@' in musician.contact.value
    ensures var blank := MailDetails(Undefined, Undefined, Undefined, Undefined, Undefined);
      var placeholders := Filled("Feast/Holy Day", "TBC", "Community member", "Not provided", "No additional notes");
      DraftFor(musician, blank) ==
        Some(EmailDraft(musician.contact.value, "Music request for upcoming Feast/Holy Day",
                        Body(musician.name, placeholders)))
  {
    ContainsChar(musician.contact.value, '@');
    var f := Fill(MailDetails(Undefined, Undefined, Undefined, Undefined, Undefined));
    assert f == Filled("Feast/Holy Day", "TBC", "Community member", "Not provided", "No additional notes");
    assert Subject(f) == "Music request for upcoming Feast/Holy Day";
  }
}
