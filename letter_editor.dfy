// components/LetterEditor.tsx: the composing state (content, recipient,
// style, attachments, stamps, the active stamp design) and the handlers
// that change it.

module LetterEditor {
  import opened Types
  import opened Strings
  import opened Constants
  import App

  /** The file the user picked: its name and MIME type. */
  datatype PickedFile = PickedFile(name: string, mimeType: string)

  /** The attachment kind of an uploaded file. The source starts from IMAGE
      and lets an `audio/` and then a `video/` prefix override it. */
  function AttachmentTypeOf(mimeType: string): (kind: AttachmentType)
    ensures kind == Audio <==> StartsWith(mimeType, "audio/")
    ensures kind == Video <==> StartsWith(mimeType, "video/")
    ensures kind == Image <==> !StartsWith(mimeType, "audio/") && !StartsWith(mimeType, "video/")
  {
    var kind := if StartsWith(mimeType, "audio/") then Audio else Image;
    if StartsWith(mimeType, "video/") then
      assert !StartsWith(mimeType, "audio/") by {
        assert mimeType[0] == "video/"[0];
      }
      Video
    else kind
  }

  /** Clicking a stamp design selects it, or deselects it when it is the active one. */
  function NextActiveStamp(active: Option<string>, clicked: string): (next: Option<string>)
    ensures next.None? <==> active == Some(clicked)
    ensures next.Some? ==> next.value == clicked
  {
    if active == Some(clicked) then None else Some(clicked)
  }

  /** `Math.random() * 40 - 20` for a draw of Math.random(). */
  function StampRotation(draw: real): (degrees: real)
    ensures 0.0 <= draw < 1.0 ==> -20.0 <= degrees < 20.0
    ensures draw == 0.5 ==> degrees == 0.0
  {
    draw * 40.0 - 20.0
  }

  /** The stamp a click on the paper places; x and y are the click position
      in percent of the sheet. */
  function NewStamp(design: string, x: real, y: real, draw: real, clock: int): (s: Stamp)
    ensures s.design == design && s.x == x && s.y == y
    ensures s.id == "stamp-" + IntToDecimal(clock)
    ensures 0.0 <= draw < 1.0 ==> -20.0 <= s.rotation < 20.0
  {
    Stamp("stamp-" + IntToDecimal(clock), design, x, y, StampRotation(draw))
  }

  /** The content after a polish request that the rewriting service answered
      with `rewritten` (None when it answered with no text). Empty content is
      never sent for polishing; an empty answer leaves the content alone. */
  function PolishedContent(content: string, rewritten: Option<string>): (r: string)
    ensures content == "" ==> r == ""
    ensures content != "" ==> r != ""
    ensures r == content || (content != "" && rewritten == Some(r))
    ensures content != "" && rewritten.Some? && rewritten.value != "" ==> r == rewritten.value
  {
    if content == "" then content
    else if rewritten.Some? && rewritten.value != "" then rewritten.value
    else content
  }

  /** `selectedContact ? selectedContact.distanceKm / 100 : 0`. */
  function TravelTimeHours(contacts: seq<Contact>, recipientId: string): (hours: real)
    ensures FindContact(contacts, recipientId).None? ==> hours == 0.0
    ensures FindContact(contacts, recipientId).Some? ==>
      hours * KmPerHour as real == FindContact(contacts, recipientId).value.distanceKm as real
  {
    match FindContact(contacts, recipientId)
    case None => 0.0
    case Some(c) => c.distanceKm as real / 100.0
  }

  /** The travel time the editor shows is the delay the letter gets once
      sent, for any recipient whose distance is not 0. */
  lemma TravelTimeIsDeliveryDelay(contacts: seq<Contact>, recipientId: string, draft: Draft,
                                  idClock: int, sentClock: int, etaClock: int)
    requires FindContact(contacts, recipientId).Some?
    requires FindContact(contacts, recipientId).value.distanceKm != 0
    requires draft.distance == Some(FindContact(contacts, recipientId).value.distanceKm)
    ensures (App.NewLetter(draft, idClock, sentClock, etaClock).estimatedDeliveryAt - etaClock) as real
      == TravelTimeHours(contacts, recipientId) * MsPerHour as real
  {
    var km := FindContact(contacts, recipientId).value.distanceKm;
    var h := TravelTimeHours(contacts, recipientId);
    assert h * 100.0 == km as real;
    assert DeliveryTimeMs(km) as real == km as real * 36000.0;
    calc {
      h * MsPerHour as real;
      h * 100.0 * 36000.0;
      km as real * 36000.0;
    }
  }

  /** A recipient at distance 0 is shown as no travel at all, yet the letter
      is timed as a 100 km journey of one hour. */
  lemma ZeroDistanceTravelsOneHour(contacts: seq<Contact>, recipientId: string, draft: Draft,
                                   idClock: int, sentClock: int, etaClock: int)
    requires FindContact(contacts, recipientId).Some?
    requires FindContact(contacts, recipientId).value.distanceKm == 0
    requires draft.distance == Some(0)
    ensures TravelTimeHours(contacts, recipientId) == 0.0
    ensures App.NewLetter(draft, idClock, sentClock, etaClock).estimatedDeliveryAt == etaClock + MsPerHour
  {
  }

  /** The state of the letter being composed. */
  class Editor {
    var recipientId: string
    var content: string
    var font: string
    var paper: Paper
    var attachments: seq<Attachment>
    var stamps: seq<Stamp>
    var activeStamp: Option<string>

    /** A blank letter addressed to the first contact (no one when there are
        no contacts), in the first font on the first paper. */
    constructor (contacts: seq<Contact>)
      ensures recipientId == (if |contacts| > 0 then contacts[0].id else "")
      ensures content == "" && font == Fonts()[0] && paper == PaperTypes()[0]
      ensures attachments == [] && stamps == [] && activeStamp == None
      ensures !CanSend()
    {
      recipientId := if |contacts| > 0 then contacts[0].id else "";
      content := "";
      font := Fonts()[0];
      paper := PaperTypes()[0];
      attachments := [];
      stamps := [];
      activeStamp := None;
    }

    /** The "Seal & Send" button is enabled. */
    predicate CanSend()
      reads this
    {
      content != "" && recipientId != ""
    }

    /** What the send button hands over: the editor state plus the selected
        contact's distance, missing when the recipient id matches no contact. */
    function Payload(contacts: seq<Contact>): (d: Draft)
      reads this
      ensures d.recipientId == recipientId && d.content == content && d.font == font && d.paper == paper
      ensures d.attachments == attachments && d.stamps == stamps
      ensures d.distance.None? <==> FindContact(contacts, recipientId).None?
      ensures d.distance.Some? ==> d.distance.value == FindContact(contacts, recipientId).value.distanceKm
    {
      var selected := FindContact(contacts, recipientId);
      Draft(recipientId, content, font, paper, attachments, stamps,
            if selected.Some? then Some(selected.value.distanceKm) else None)
    }

    method Write(text: string)
      modifies this`content
      ensures content == text
      ensures CanSend() <==> text != "" && recipientId != ""
    {
      content := text;
    }

    method ChooseRecipient(id: string)
      modifies this`recipientId
      ensures recipientId == id
    {
      recipientId := id;
    }

    method ChooseFont(fontClass: string)
      modifies this`font
      ensures font == fontClass
    {
      font := fontClass;
    }

    /** `handleFileUpload`: with no file picked nothing changes; otherwise
        one attachment, read as `dataUrl`, goes after the existing ones. */
    method UploadFile(file: Option<PickedFile>, dataUrl: string)
      modifies this`attachments
      ensures file.None? ==> attachments == old(attachments)
      ensures file.Some? ==>
        attachments == old(attachments) + [Attachment(AttachmentTypeOf(file.value.mimeType), dataUrl, file.value.name)]
    {
      if file.None? {
        return;
      }
      var kind := AttachmentTypeOf(file.value.mimeType);
      attachments := attachments + [Attachment(kind, dataUrl, file.value.name)];
    }

    /** The onClick of a stamp design button. */
    method ToggleStamp(design: string)
      modifies this`activeStamp
      ensures activeStamp == NextActiveStamp(old(activeStamp), design)
    {
      activeStamp := if activeStamp == Some(design) then None else Some(design);
    }

    /** `handlePaperClick`: only with a stamp design active (and the paper on
        screen) does a click place a stamp, after the existing ones. */
    method PlaceStamp(paperMounted: bool, x: real, y: real, draw: real, clock: int)
      modifies this`stamps
      ensures activeStamp.None? || !paperMounted ==> stamps == old(stamps)
      ensures activeStamp.Some? && paperMounted ==>
        stamps == old(stamps) + [NewStamp(activeStamp.value, x, y, draw, clock)]
    {
      if activeStamp.None? || !paperMounted {
        return;
      }
      stamps := stamps + [NewStamp(activeStamp.value, x, y, draw, clock)];
    }

    /** `handlePolish` once the rewriting service has answered. Polishing
        never disables sending. */
    method Polish(rewritten: Option<string>)
      modifies this`content
      ensures content == PolishedContent(old(content), rewritten)
      ensures old(CanSend()) ==> CanSend()
    {
      if content == "" {
        return;
      }
      if rewritten.Some? && rewritten.value != "" {
        content := rewritten.value;
      }
    }
  }
}
