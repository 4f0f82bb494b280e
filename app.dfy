// App.tsx: the letter and contact stores, the startup seed, sending a
// letter, and syncing contacts from the device.

module App {
  import opened Types
  import opened Strings
  import opened Constants
  import Dashboard

  const CurrentUser: string := "current-user"

  // ---------------------------------------------------------------- sending

  /** `letterData.distance || 100`: no distance, or a distance of 0, times the
      letter as if it travelled 100 km. */
  function EffectiveDistance(distance: Option<int>): (km: int)
    ensures km != 0
    ensures distance.Some? && distance.value != 0 ==> km == distance.value
    ensures distance.None? || distance.value == 0 ==> km == 100
  {
    match distance
    case None => 100
    case Some(d) => if d == 0 then 100 else d
  }

  /** The letter `handleSend` builds from a draft. The three clock readings are
      taken in the order the source takes them: for the id, for `sentAt` and
      for `estimatedDeliveryAt`. */
  function NewLetter(draft: Draft, idClock: int, sentClock: int, etaClock: int): (l: Letter)
    ensures l.id == "letter-" + IntToDecimal(idClock)
    ensures l.status == Arriving && l.senderId == CurrentUser
    ensures l.recipientId == draft.recipientId && l.content == draft.content && l.font == draft.font
    ensures l.paperType == draft.paper.styleClass
    ensures l.attachments == draft.attachments && l.stamps == draft.stamps
    ensures l.distance == draft.distance
    ensures l.sentAt == sentClock
    ensures sentClock <= etaClock ==>
      l.estimatedDeliveryAt >= l.sentAt + DeliveryTimeMs(EffectiveDistance(draft.distance))
  {
    Letter("letter-" + IntToDecimal(idClock), CurrentUser, draft.recipientId, draft.content, draft.font,
           draft.paper.styleClass, draft.attachments, draft.stamps, sentClock,
           etaClock + DeliveryTimeMs(EffectiveDistance(draft.distance)), Arriving, draft.distance)
  }

  /** The delivery time is read off the third clock reading, never recomputed. */
  lemma NewLetterDueTime(draft: Draft, idClock: int, sentClock: int, etaClock: int)
    ensures NewLetter(draft, idClock, sentClock, etaClock).estimatedDeliveryAt
      == etaClock + DeliveryTimeMs(EffectiveDistance(draft.distance))
  {
  }

  /** A letter to a contact at a positive distance (or to no known contact) is
      still travelling right after it is sent, and lands in the postbox once
      its delivery time has come. */
  lemma NewLetterJourney(draft: Draft, idClock: int, sentClock: int, etaClock: int, now: int)
    requires draft.distance.None? || draft.distance.value >= 0
    requires sentClock <= etaClock
    ensures NewLetter(draft, idClock, sentClock, etaClock).sentAt
      < NewLetter(draft, idClock, sentClock, etaClock).estimatedDeliveryAt
    ensures etaClock <= now < NewLetter(draft, idClock, sentClock, etaClock).estimatedDeliveryAt ==>
      Dashboard.InTab(Arriving, NewLetter(draft, idClock, sentClock, etaClock), now)
    ensures now >= NewLetter(draft, idClock, sentClock, etaClock).estimatedDeliveryAt ==>
      Dashboard.InTab(Received, NewLetter(draft, idClock, sentClock, etaClock), now)
    ensures !Dashboard.InTab(Sent, NewLetter(draft, idClock, sentClock, etaClock), now)
  {
    var km := EffectiveDistance(draft.distance);
    assert km > 0;
    DeliveryTimeSign(km);
  }

  /** An example: 450 km sent at T is en route an hour later and in
      the postbox five hours later. */
  lemma LondonLetterScenario(draft: Draft, t: int)
    requires draft.distance == Some(450)
    ensures Dashboard.InTab(Arriving, NewLetter(draft, t, t, t), t + MsPerHour)
    ensures Dashboard.InTab(Received, NewLetter(draft, t, t, t), t + 5 * MsPerHour)
  {
  }

  /** Letters the user sends are never filed under Dispatch: every card of
      theirs shows the sender, the user, who is no contact unless a contact
      happens to carry the id "current-user". */
  lemma SentLettersShowTheUser(draft: Draft, idClock: int, sentClock: int, etaClock: int,
                               now: int, contacts: seq<Contact>, tab: LetterStatus)
    requires Dashboard.InTab(tab, NewLetter(draft, idClock, sentClock, etaClock), now)
    ensures tab != Sent
    ensures (forall i | 0 <= i < |contacts| :: contacts[i].id != CurrentUser) ==>
      Dashboard.PersonShown(tab, NewLetter(draft, idClock, sentClock, etaClock), contacts).None?
  {
  }

  // ------------------------------------------------------------ startup seed

  /** The stamp design of the seed letter as App.tsx spells it: the UTF-8
      bytes of the dove glyph read back as Windows-1252 text. */
  const MisencodedDove: string := "\U{F0}\U{178}\U{2022}\U{160}\U{EF}\U{B8}"

  const SeedContent: string :=
    "I hope this letter finds you well. It's been a while since we spoke, and I've been thinking about the walk we took by the river last summer."

  /** The one example letter written on first start: from Alice, sent two
      hours before the first clock reading, delivered one hour before the second. */
  function SeedLetterWith(design: string, firstClock: int, secondClock: int): (l: Letter)
    ensures l.status == Received && l.senderId == "1" && l.recipientId == CurrentUser
    ensures l.sentAt == firstClock - 2 * MsPerHour && l.estimatedDeliveryAt == secondClock - MsPerHour
    ensures l.stamps == [Stamp("s1", design, 80.0, 15.0, 10.0)] && l.distance == Some(450)
  {
    Letter("mock-1", "1", CurrentUser, SeedContent,
           "serif", PaperTypes()[0].styleClass, [], [Stamp("s1", design, 80.0, 15.0, 10.0)],
           firstClock - 2 * MsPerHour, secondClock - MsPerHour, Received, Some(450))
  }

  /** The seed letter exactly as App.tsx writes it. */
  function SeedLetterAsWritten(firstClock: int, secondClock: int): (l: Letter)
    ensures |l.stamps| == 1 && l.stamps[0].design == MisencodedDove
  {
    SeedLetterWith(MisencodedDove, firstClock, secondClock)
  }

  /** Its stamp is none of the designs the editor offers. */
  lemma SeedStampAsWrittenIsNoDesign(firstClock: int, secondClock: int)
    ensures SeedLetterAsWritten(firstClock, secondClock).stamps[0].design !in StampDesigns()
  {
    var d := SeedLetterAsWritten(firstClock, secondClock).stamps[0].design;
    forall i | 0 <= i < |StampDesigns()| ensures StampDesigns()[i] != d {
      assert StampDesigns()[i][0] != d[0];
    }
  }

  /** The seed letter with the dove stamp it was meant to carry. */
  function SeedLetter(firstClock: int, secondClock: int): (l: Letter)
    ensures |l.stamps| == 1 && l.stamps[0].design == StampDesigns()[0]
  {
    SeedLetterWith(StampDesigns()[0], firstClock, secondClock)
  }

  /** The seed letter is already delivered: sent before its delivery time,
      which lies before any moment from the second clock reading on. */
  lemma SeedLetterDelivered(firstClock: int, secondClock: int, now: int)
    requires firstClock <= secondClock <= now
    ensures SeedLetter(firstClock, secondClock).sentAt < SeedLetter(firstClock, secondClock).estimatedDeliveryAt < now
    ensures Dashboard.InTab(Received, SeedLetter(firstClock, secondClock), now)
  {
  }

  // ---------------------------------------------------------- contact sync

  /** What the device contact picker returns for one contact. */
  datatype DeviceContact = DeviceContact(names: seq<string>, emails: seq<string>)

  /** The picker either returns its selection or throws. */
  datatype PickResult = Picked(devices: seq<DeviceContact>) | PickFailed

  /** Unsupported is the case the source reports with an alert, SyncFailed
      the one it logs. */
  datatype SyncOutcome = Unsupported | SyncFailed | Synced

  const UnknownContactName: string := "Unknown Contact"

  /** `c.name[0] || 'Unknown Contact'`. */
  function DeviceContactName(device: DeviceContact): (name: string)
    ensures name != ""
    ensures |device.names| > 0 && device.names[0] != "" ==> name == device.names[0]
    ensures |device.names| == 0 || device.names[0] == "" ==> name == UnknownContactName
  {
    if |device.names| > 0 && device.names[0] != "" then device.names[0] else UnknownContactName
  }

  /** `Math.floor(Math.random() * 8000) + 100` for a draw of Math.random(). */
  function SimulatedDistance(draw: real): (km: int)
    ensures 0.0 <= draw < 1.0 ==> 100 <= km < 8100
  {
    (draw * 8000.0).Floor + 100
  }

  /** The contact built from the index-th picked device contact at clock t. */
  function ImportDeviceContact(device: DeviceContact, t: int, index: nat, draw: real): (c: Contact)
    ensures c.name == DeviceContactName(device) && c.location == "Virtual Location"
    ensures c.distanceKm == SimulatedDistance(draw)
    ensures c.id == "device-" + IntToDecimal(t) + "-" + NatToDecimal(index)
    ensures StartsWith(c.id, "device-")
  {
    var shown := if |device.names| > 0 then device.names[0] else "undefined";
    Contact("device-" + IntToDecimal(t) + "-" + NatToDecimal(index), DeviceContactName(device),
            "https://ui-avatars.com/api/?name=" + shown + "&background=random",
            "Virtual Location", SimulatedDistance(draw))
  }

  /** `deviceContacts.map(...)`: the callback reads the clock and draws a
      random number once per contact, so each contact has its own reading. */
  function ImportDeviceContacts(devices: seq<DeviceContact>, clocks: seq<int>, draws: seq<real>): (cs: seq<Contact>)
    requires |clocks| == |devices| && |draws| == |devices|
    ensures |cs| == |devices|
    ensures forall i | 0 <= i < |cs| :: cs[i].name != "" && StartsWith(cs[i].id, "device-")
    ensures forall i | 0 <= i < |cs| :: 0.0 <= draws[i] < 1.0 ==> 100 <= cs[i].distanceKm < 8100
    ensures forall i | 0 <= i < |cs| :: cs[i] == ImportDeviceContact(devices[i], clocks[i], i, draws[i])
    ensures forall i, j | 0 <= i < j < |cs| :: cs[i].id != cs[j].id
  {
    var cs := seq(|devices|, i requires 0 <= i < |devices| => ImportDeviceContact(devices[i], clocks[i], i, draws[i]));
    assert forall i, j | 0 <= i < j < |cs| :: cs[i].id != cs[j].id by {
      forall i, j | 0 <= i < j < |cs| ensures cs[i].id != cs[j].id {
        DeviceIdsDistinct(clocks[i], i, clocks[j], j);
      }
    }
    cs
  }

  /** The index suffix keeps the ids of one import apart, whatever the clock
      read for each of them. */
  lemma DeviceIdsDistinct(t1: int, index1: nat, t2: int, index2: nat)
    requires index1 != index2
    ensures "device-" + IntToDecimal(t1) + "-" + NatToDecimal(index1)
         != "device-" + IntToDecimal(t2) + "-" + NatToDecimal(index2)
  {
    if "device-" + IntToDecimal(t1) + "-" + NatToDecimal(index1)
       == "device-" + IntToDecimal(t2) + "-" + NatToDecimal(index2) {
      DigitSuffixUnique("device-" + IntToDecimal(t1), NatToDecimal(index1),
                        "device-" + IntToDecimal(t2), NatToDecimal(index2));
      NatToDecimalInjective(index1, index2);
    }
  }

  // ------------------------------------------------- deduplication by name

  predicate HasName(s: seq<Contact>, n: string)
  {
    exists i | 0 <= i < |s| :: s[i].name == n
  }

  predicate NamesDistinct(s: seq<Contact>)
  {
    forall i, j | 0 <= i < j < |s| :: s[i].name != s[j].name
  }

  /** `Map.set(c.name, c)` on the entries of a Map keyed by name: an existing
      key keeps its place and takes the new value, a new key goes last. */
  function MapSet(entries: seq<Contact>, c: Contact): seq<Contact>
  {
    if HasName(entries, c.name) then
      seq(|entries|, i requires 0 <= i < |entries| => if entries[i].name == c.name then c else entries[i])
    else
      entries + [c]
  }

  /** `Array.from(new Map(s.map(c => [c.name, c])).values())`. */
  function Dedup(s: seq<Contact>): (r: seq<Contact>)
    ensures |r| <= |s|
  {
    if s == [] then [] else MapSet(Dedup(s[..|s| - 1]), s[|s| - 1])
  }

  /** The contacts after a sync: the existing ones, then the imported ones,
      deduplicated by name. */
  function MergeContacts(existing: seq<Contact>, imported: seq<Contact>): seq<Contact>
  {
    Dedup(existing + imported)
  }

  /** The last contact of s that carries the name n. */
  function LastWithName(s: seq<Contact>, n: string): (c: Contact)
    requires HasName(s, n)
    ensures c.name == n
    ensures exists k | 0 <= k < |s| :: s[k] == c && forall j | k < j < |s| :: s[j].name != n
  {
    var last := s[|s| - 1];
    if last.name == n then
      last
    else
      var p := s[..|s| - 1];
      var i :| 0 <= i < |s| && s[i].name == n;
      assert p[i].name == n;
      var c := LastWithName(p, n);
      var k :| 0 <= k < |p| && p[k] == c && forall j | k < j < |p| :: p[j].name != n;
      assert s[k] == c;
      c
  }

  /** The position of the first contact of s that carries the name n. */
  function FirstIndex(s: seq<Contact>, n: string): (i: nat)
    requires HasName(s, n)
    ensures i < |s| && s[i].name == n
    ensures forall j | 0 <= j < i :: s[j].name != n
  {
    if s[0].name == n then 0
    else
      var k :| 0 <= k < |s| && s[k].name == n;
      assert s[1..][k - 1].name == n;
      1 + FirstIndex(s[1..], n)
  }

  lemma FirstIndexOfPrefix(p: seq<Contact>, c: Contact, n: string)
    requires HasName(p, n)
    ensures HasName(p + [c], n) && FirstIndex(p + [c], n) == FirstIndex(p, n)
  {
    var i := FirstIndex(p, n);
    assert (p + [c])[i].name == n;
    var k := FirstIndex(p + [c], n);
    assert k <= i;
    assert p[k] == (p + [c])[k];
  }

  lemma FirstIndexOfNewName(p: seq<Contact>, c: Contact)
    requires !HasName(p, c.name)
    ensures HasName(p + [c], c.name) && FirstIndex(p + [c], c.name) == |p|
  {
    assert (p + [c])[|p|].name == c.name;
  }

  lemma MapSetNames(entries: seq<Contact>, c: Contact, n: string)
    ensures HasName(MapSet(entries, c), n) <==> HasName(entries, n) || n == c.name
  {
    var r := MapSet(entries, c);
    if HasName(entries, c.name) {
      var m :| 0 <= m < |entries| && entries[m].name == c.name;
      assert r[m] == c;
      if HasName(entries, n) {
        var i :| 0 <= i < |entries| && entries[i].name == n;
        assert r[i].name == n;
      }
      if HasName(r, n) {
        var i :| 0 <= i < |r| && r[i].name == n;
        assert entries[i].name == n || n == c.name;
      }
    } else {
      assert r[|entries|] == c;
      if HasName(entries, n) {
        var i :| 0 <= i < |entries| && entries[i].name == n;
        assert r[i].name == n;
      }
      if HasName(r, n) {
        var i :| 0 <= i < |r| && r[i].name == n;
        if i < |entries| { assert entries[i].name == n; }
      }
    }
  }

  /** Deduplication neither loses nor invents a name. */
  lemma {:induction false} DedupNames(s: seq<Contact>, n: string)
    ensures HasName(Dedup(s), n) <==> HasName(s, n)
  {
    if s != [] {
      var p, c := s[..|s| - 1], s[|s| - 1];
      assert s == p + [c];
      DedupNames(p, n);
      MapSetNames(Dedup(p), c, n);
      if HasName(p, n) {
        var i :| 0 <= i < |p| && p[i].name == n;
        assert s[i].name == n;
      }
      if HasName(s, n) && n != c.name {
        var i :| 0 <= i < |s| && s[i].name == n;
        assert p[i].name == n;
      }
    }
  }

  /** After deduplication no two contacts share a name. */
  lemma {:induction false} DedupNamesDistinct(s: seq<Contact>)
    ensures NamesDistinct(Dedup(s))
  {
    if s != [] {
      var p, c := s[..|s| - 1], s[|s| - 1];
      DedupNamesDistinct(p);
      var e := Dedup(p);
      var r := MapSet(e, c);
      if !HasName(e, c.name) {
        forall i, j | 0 <= i < j < |r| ensures r[i].name != r[j].name {
          if j == |e| {
            assert r[i] == e[i];
          }
        }
      }
    }
  }

  /** Each kept contact is the last one of s with its name: later entries
      overwrite earlier ones. */
  lemma {:induction false} DedupKeepsLast(s: seq<Contact>)
    ensures forall k | 0 <= k < |Dedup(s)| :: HasName(s, Dedup(s)[k].name)
    ensures forall k | 0 <= k < |Dedup(s)| :: Dedup(s)[k] == LastWithName(s, Dedup(s)[k].name)
  {
    if s != [] {
      var p, c := s[..|s| - 1], s[|s| - 1];
      assert s == p + [c];
      DedupKeepsLast(p);
      var e := Dedup(p);
      var r := Dedup(s);
      assert r == MapSet(e, c);
      forall k | 0 <= k < |r| ensures HasName(s, r[k].name) && r[k] == LastWithName(s, r[k].name) {
        if r[k].name == c.name {
          assert s[|s| - 1].name == c.name;
        } else {
          assert k < |e| && r[k] == e[k];
          var i :| 0 <= i < |p| && p[i].name == e[k].name;
          assert s[i].name == e[k].name;
        }
      }
    }
  }

  /** r lists names of s, in the order in which they first occur in s. */
  predicate InFirstOccurrenceOrder(s: seq<Contact>, r: seq<Contact>)
  {
    (forall k | 0 <= k < |r| :: HasName(s, r[k].name)) &&
    forall i, j | 0 <= i < j < |r| :: FirstIndex(s, r[i].name) < FirstIndex(s, r[j].name)
  }

  /** Contacts come out in the order in which their names first occur in s. */
  lemma {:induction false} DedupFirstOccurrenceOrder(s: seq<Contact>)
    ensures InFirstOccurrenceOrder(s, Dedup(s))
  {
    if s != [] {
      var p, c := s[..|s| - 1], s[|s| - 1];
      assert s == p + [c];
      DedupFirstOccurrenceOrder(p);
      DedupNames(p, c.name);
      if HasName(p, c.name) {
        OrderAfterOverwrite(p, c, Dedup(p));
      } else {
        OrderAfterAppend(p, c, Dedup(p));
      }
    }
  }

  /** Overwriting a name already present keeps every position and name. */
  lemma OrderAfterOverwrite(p: seq<Contact>, c: Contact, e: seq<Contact>)
    requires InFirstOccurrenceOrder(p, e) && HasName(e, c.name)
    ensures InFirstOccurrenceOrder(p + [c], MapSet(e, c))
  {
    var r := MapSet(e, c);
    forall k | 0 <= k < |r| ensures r[k].name == e[k].name && HasName(p + [c], r[k].name)
      && FirstIndex(p + [c], r[k].name) == FirstIndex(p, e[k].name)
    {
      FirstIndexOfPrefix(p, c, e[k].name);
    }
  }

  /** A new name goes last, and it first occurs after every earlier name. */
  lemma OrderAfterAppend(p: seq<Contact>, c: Contact, e: seq<Contact>)
    requires InFirstOccurrenceOrder(p, e) && !HasName(p, c.name) && !HasName(e, c.name)
    ensures InFirstOccurrenceOrder(p + [c], MapSet(e, c))
  {
    var r := MapSet(e, c);
    assert r == e + [c];
    forall k | 0 <= k < |e| ensures r[k] == e[k] && HasName(p + [c], r[k].name)
      && FirstIndex(p + [c], r[k].name) == FirstIndex(p, e[k].name)
    {
      FirstIndexOfPrefix(p, c, e[k].name);
    }
    FirstIndexOfNewName(p, c);
  }

  /** A list whose names are already distinct is left as it is. */
  lemma {:induction false} DedupOfDistinct(s: seq<Contact>)
    requires NamesDistinct(s)
    ensures Dedup(s) == s
  {
    if s != [] {
      var p, c := s[..|s| - 1], s[|s| - 1];
      assert s == p + [c];
      DedupOfDistinct(p);
    }
  }

  lemma DedupIdempotent(s: seq<Contact>)
    ensures Dedup(Dedup(s)) == Dedup(s)
  {
    DedupNamesDistinct(s);
    DedupOfDistinct(Dedup(s));
  }

  /** A sync merge keeps every name of both lists, once each. */
  lemma MergeKeepsEveryName(existing: seq<Contact>, imported: seq<Contact>)
    ensures NamesDistinct(MergeContacts(existing, imported))
    ensures |MergeContacts(existing, imported)| <= |existing| + |imported|
    ensures forall n :: HasName(MergeContacts(existing, imported), n) <==> HasName(existing, n) || HasName(imported, n)
  {
    var s := existing + imported;
    DedupNamesDistinct(s);
    forall n ensures HasName(Dedup(s), n) <==> HasName(existing, n) || HasName(imported, n) {
      DedupNames(s, n);
      if HasName(existing, n) {
        var i :| 0 <= i < |existing| && existing[i].name == n;
        assert s[i].name == n;
      }
      if HasName(imported, n) {
        var i :| 0 <= i < |imported| && imported[i].name == n;
        assert s[|existing| + i].name == n;
      }
      if HasName(s, n) {
        var i :| 0 <= i < |s| && s[i].name == n;
        if i < |existing| { assert existing[i].name == n; } else { assert imported[i - |existing|].name == n; }
      }
    }
  }

  /** Existing contacts with distinct names keep their places; an imported
      contact that shares a name takes over that place, id and all. */
  lemma {:induction false} MergeKeepsExistingPlaces(existing: seq<Contact>, imported: seq<Contact>)
    requires NamesDistinct(existing)
    ensures |MergeContacts(existing, imported)| >= |existing|
    ensures forall k | 0 <= k < |existing| :: MergeContacts(existing, imported)[k].name == existing[k].name
  {
    if imported == [] {
      assert existing + imported == existing;
      DedupOfDistinct(existing);
    } else {
      var t, c := imported[..|imported| - 1], imported[|imported| - 1];
      MergeKeepsExistingPlaces(existing, t);
      assert (existing + imported)[..|existing + imported| - 1] == existing + t;
      assert (existing + imported)[|existing + imported| - 1] == c;
    }
  }

  /** Syncing a device contact named like a seed contact replaces that seed
      contact, so its id no longer names any contact. */
  lemma SyncCanDropAnId()
    ensures var device := Contact("device-1-0", "Alice Wonder", "", "Virtual Location", 500);
            var merged := MergeContacts(MockContacts(), [device]);
            forall i | 0 <= i < |merged| :: merged[i].id != "1"
  {
    var device := Contact("device-1-0", "Alice Wonder", "", "Virtual Location", 500);
    var s := MockContacts() + [device];
    assert s[..4] == MockContacts();
    assert Dedup(s[..4]) == MockContacts() by {
      MockContactsWellFormed();
      DedupOfDistinct(MockContacts());
    }
    assert HasName(MockContacts(), device.name) by {
      assert MockContacts()[0].name == device.name;
    }
  }

  // ------------------------------------------------------------ the store

  /** The app's letter and contact state, with the two storage slots it
      writes through to (None: nothing stored under that key). */
  class Postbox {
    var letters: seq<Letter>
    var contacts: seq<Contact>
    var storedLetters: Option<seq<Letter>>
    var storedContacts: Option<seq<Contact>>

    /** Storage mirrors memory: the letters are always persisted, the
        contacts once anything has been written for them. */
    predicate Valid()
      reads this
    {
      storedLetters == Some(letters) && (storedContacts.Some? ==> storedContacts.value == contacts)
    }

    /** The component before its startup effect runs: no letters, the seed
        contacts, and whatever the browser has stored. */
    constructor (storedLetters: Option<seq<Letter>>, storedContacts: Option<seq<Contact>>)
      ensures letters == [] && contacts == MockContacts()
      ensures this.storedLetters == storedLetters && this.storedContacts == storedContacts
    {
      letters := [];
      contacts := MockContacts();
      this.storedLetters := storedLetters;
      this.storedContacts := storedContacts;
    }

    /** The startup effect: load what is stored; if no letters are stored,
        write the seed letter (the clock is read twice for it). */
    method Start(firstClock: int, secondClock: int)
      modifies this
      ensures Valid()
      ensures old(storedLetters).Some? ==> letters == old(storedLetters).value
      ensures old(storedLetters).None? ==> letters == [SeedLetter(firstClock, secondClock)]
      ensures contacts == if old(storedContacts).Some? then old(storedContacts).value else old(contacts)
      ensures storedContacts == old(storedContacts)
    {
      if storedContacts.Some? {
        contacts := storedContacts.value;
      }
      if storedLetters.Some? {
        letters := storedLetters.value;
      } else {
        var initial := [SeedLetter(firstClock, secondClock)];
        letters := initial;
        storedLetters := Some(initial);
      }
    }

    /** `handleSend`: append the new letter and persist the whole list. */
    method Send(draft: Draft, idClock: int, sentClock: int, etaClock: int)
      requires Valid()
      modifies this
      ensures Valid()
      ensures letters == old(letters) + [NewLetter(draft, idClock, sentClock, etaClock)]
      ensures contacts == old(contacts) && storedContacts == old(storedContacts)
    {
      var updated := letters + [NewLetter(draft, idClock, sentClock, etaClock)];
      letters := updated;
      storedLetters := Some(updated);
    }

    /** `handleSyncContacts`: without the picker capability, or when the
        picker throws, nothing changes; otherwise the picked contacts are
        imported (one clock reading and one random draw each), merged and
        persisted. */
    method SyncContacts(supported: bool, picked: PickResult, clocks: seq<int>, draws: seq<real>)
      returns (outcome: SyncOutcome)
      requires Valid()
      requires picked.Picked? ==> |clocks| == |picked.devices| && |draws| == |picked.devices|
      modifies this
      ensures Valid()
      ensures letters == old(letters) && storedLetters == old(storedLetters)
      ensures !supported ==> outcome == Unsupported
      ensures supported && picked.PickFailed? ==> outcome == SyncFailed
      ensures outcome != Synced ==> contacts == old(contacts) && storedContacts == old(storedContacts)
      ensures outcome == Synced <==> supported && picked.Picked?
      ensures outcome == Synced ==>
        contacts == MergeContacts(old(contacts), ImportDeviceContacts(picked.devices, clocks, draws))
        && storedContacts == Some(contacts)
        && NamesDistinct(contacts)
    {
      if !supported {
        return Unsupported;
      }
      if picked.PickFailed? {
        return SyncFailed;
      }
      var imported := ImportDeviceContacts(picked.devices, clocks, draws);
      var unique := MergeContacts(contacts, imported);
      DedupNamesDistinct(contacts + imported);
      contacts := unique;
      storedContacts := Some(unique);
      outcome := Synced;
    }
  }

  /** Sending appends: every tab of the dashboard lists what it listed before,
      in the same order, and at most the new letter after it. */
  lemma SendExtendsEveryTab(letters: seq<Letter>, draft: Draft, idClock: int, sentClock: int, etaClock: int,
                            tab: LetterStatus, now: int)
    ensures var l := NewLetter(draft, idClock, sentClock, etaClock);
      Dashboard.TabLetters(letters + [l], tab, now)
      == Dashboard.TabLetters(letters, tab, now) + (if Dashboard.InTab(tab, l, now) then [l] else [])
  {
    Dashboard.TabLettersAppend(letters, NewLetter(draft, idClock, sentClock, etaClock), tab, now);
  }
}
