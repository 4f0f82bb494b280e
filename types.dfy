// The record types of the slow-mail app (types.ts) and the find-by-id
// lookup that the dashboard, the editor and the tracking view all perform.

module Types {

  datatype Option<T> = None | Some(value: T)

  datatype AttachmentType = Image | Audio | Video

  /** A media file embedded in a letter; `url` is its inline data URI. */
  datatype Attachment = Attachment(kind: AttachmentType, url: string, name: string)

  /** A wax stamp placed on the paper: x and y are percentages of the sheet. */
  datatype Stamp = Stamp(id: string, design: string, x: real, y: real, rotation: real)

  datatype Contact = Contact(id: string, name: string, avatar: string, location: string, distanceKm: int)

  datatype LetterStatus = Arriving | Received | Sent

  /** A sheet of writing paper: its display name and the style class a letter stores. */
  datatype Paper = Paper(name: string, styleClass: string)

  /** A letter as stored. `distance` is None when the letter was sent to a
      recipient id that matched no contact (the editor then passes no distance). */
  datatype Letter = Letter(
    id: string,
    senderId: string,
    recipientId: string,
    content: string,
    font: string,
    paperType: string,
    attachments: seq<Attachment>,
    stamps: seq<Stamp>,
    sentAt: int,
    estimatedDeliveryAt: int,
    status: LetterStatus,
    distance: Option<int>)

  /** What the editor hands to the app when the user seals and sends a letter. */
  datatype Draft = Draft(
    recipientId: string,
    content: string,
    font: string,
    paper: Paper,
    attachments: seq<Attachment>,
    stamps: seq<Stamp>,
    distance: Option<int>)

  /** `contacts.find(c => c.id === id)`: the first contact with that id, if any. */
  function FindContact(contacts: seq<Contact>, id: string): (r: Option<Contact>)
    ensures r.None? <==> forall i | 0 <= i < |contacts| :: contacts[i].id != id
    ensures r.Some? ==> exists i | 0 <= i < |contacts| :: contacts[i] == r.value && FirstWithId(contacts, id, i)
  {
    if contacts == [] then None
    else if contacts[0].id == id then
      assert FirstWithId(contacts, id, 0);
      Some(contacts[0])
    else
      var r := FindContact(contacts[1..], id);
      if r.None? then None
      else
        var i :| 0 <= i < |contacts[1..]| && contacts[1..][i] == r.value && FirstWithId(contacts[1..], id, i);
        assert FirstWithId(contacts, id, i + 1);
        r
  }

  /** Index i holds a contact with the given id, and no earlier one does. */
  predicate FirstWithId(contacts: seq<Contact>, id: string, i: int)
  {
    0 <= i < |contacts| && contacts[i].id == id && forall j | 0 <= j < i :: contacts[j].id != id
  }
}
