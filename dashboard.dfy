// components/Dashboard.tsx: which letters each tab lists, whom a card shows
// and what clicking a card does. The tab is named by the status it stands
// for: Arriving is "En Route", Received is "Postbox", Sent is "Dispatch".

module Dashboard {
  import opened Types

  /** The filter predicate of the active tab. Stored statuses are never
      rewritten: an Arriving letter whose delivery time has come is listed
      under Received purely by this comparison with `now`. */
  predicate InTab(tab: LetterStatus, l: Letter, now: int)
  {
    if tab == Arriving then
      l.status == Arriving && l.estimatedDeliveryAt > now
    else if tab == Received then
      l.status == Received || (l.status == Arriving && l.estimatedDeliveryAt <= now)
    else
      l.status == Sent
  }

  /** `letters.filter(...)` for the active tab. */
  function TabLetters(letters: seq<Letter>, tab: LetterStatus, now: int): (shown: seq<Letter>)
    ensures |shown| <= |letters|
  {
    if letters == [] then []
    else (if InTab(tab, letters[0], now) then [letters[0]] else []) + TabLetters(letters[1..], tab, now)
  }

  /** a can be obtained from b by deleting elements: the order of a is b's. */
  predicate IsSubsequence(a: seq<Letter>, b: seq<Letter>)
    decreases |b|
  {
    if a == [] then true
    else if b == [] then false
    else (a[0] == b[0] && IsSubsequence(a[1..], b[1..])) || IsSubsequence(a, b[1..])
  }

  /** A tab lists exactly the stored letters that pass its filter. */
  lemma {:induction false} TabMembers(letters: seq<Letter>, tab: LetterStatus, now: int)
    ensures forall l :: l in TabLetters(letters, tab, now) <==> l in letters && InTab(tab, l, now)
  {
    if letters != [] {
      TabMembers(letters[1..], tab, now);
      assert letters == [letters[0]] + letters[1..];
    }
  }

  lemma EnRouteTab(letters: seq<Letter>, now: int)
    ensures forall l :: l in TabLetters(letters, Arriving, now) <==>
      l in letters && l.status == Arriving && l.estimatedDeliveryAt > now
  {
    TabMembers(letters, Arriving, now);
  }

  lemma PostboxTab(letters: seq<Letter>, now: int)
    ensures forall l :: l in TabLetters(letters, Received, now) <==>
      l in letters && (l.status == Received || (l.status == Arriving && l.estimatedDeliveryAt <= now))
  {
    TabMembers(letters, Received, now);
  }

  lemma DispatchTab(letters: seq<Letter>, now: int)
    ensures forall l :: l in TabLetters(letters, Sent, now) <==> l in letters && l.status == Sent
  {
    TabMembers(letters, Sent, now);
  }

  /** A letter due exactly now is already in the postbox. */
  lemma DueNowIsDelivered(l: Letter, now: int)
    requires l.status == Arriving && l.estimatedDeliveryAt == now
    ensures InTab(Received, l, now) && !InTab(Arriving, l, now)
  {
  }

  /** For every `now`, each letter is listed by exactly one tab. */
  lemma ExactlyOneTab(l: Letter, now: int)
    ensures InTab(Arriving, l, now) || InTab(Received, l, now) || InTab(Sent, l, now)
    ensures !(InTab(Arriving, l, now) && InTab(Received, l, now))
    ensures !(InTab(Arriving, l, now) && InTab(Sent, l, now))
    ensures !(InTab(Received, l, now) && InTab(Sent, l, now))
  {
  }

  /** The three tabs together list every letter exactly as often as it is stored. */
  lemma {:induction false} TabsPartitionLetters(letters: seq<Letter>, now: int)
    ensures multiset(TabLetters(letters, Arriving, now)) + multiset(TabLetters(letters, Received, now))
          + multiset(TabLetters(letters, Sent, now)) == multiset(letters)
    ensures |TabLetters(letters, Arriving, now)| + |TabLetters(letters, Received, now)|
          + |TabLetters(letters, Sent, now)| == |letters|
  {
    if letters != [] {
      var x, rest := letters[0], letters[1..];
      TabsPartitionLetters(rest, now);
      ExactlyOneTab(x, now);
      assert multiset(letters) == multiset{x} + multiset(rest) by {
        assert letters == [x] + rest;
      }
      var a, r, s := TabLetters(rest, Arriving, now), TabLetters(rest, Received, now), TabLetters(rest, Sent, now);
      var tab := if InTab(Arriving, x, now) then Arriving else if InTab(Received, x, now) then Received else Sent;
      TabLettersCons(letters, Arriving, now);
      TabLettersCons(letters, Received, now);
      TabLettersCons(letters, Sent, now);
      assert multiset([x] + a) == multiset{x} + multiset(a);
      assert multiset([x] + r) == multiset{x} + multiset(r);
      assert multiset([x] + s) == multiset{x} + multiset(s);
    }
  }

  /** One step of the filter, as a fact the partition proof can use. */
  lemma TabLettersCons(letters: seq<Letter>, tab: LetterStatus, now: int)
    requires letters != []
    ensures TabLetters(letters, tab, now) ==
      if InTab(tab, letters[0], now) then [letters[0]] + TabLetters(letters[1..], tab, now)
      else TabLetters(letters[1..], tab, now)
  {
  }

  /** Every tab keeps the stored order of the letters it lists. */
  lemma {:induction false} TabKeepsOrder(letters: seq<Letter>, tab: LetterStatus, now: int)
    ensures IsSubsequence(TabLetters(letters, tab, now), letters)
  {
    if letters != [] {
      TabKeepsOrder(letters[1..], tab, now);
      var rest := TabLetters(letters[1..], tab, now);
      if InTab(tab, letters[0], now) {
        assert TabLetters(letters, tab, now) == [letters[0]] + rest;
        assert ([letters[0]] + rest)[1..] == rest;
      } else {
        assert TabLetters(letters, tab, now) == rest;
      }
    }
  }

  /** A letter that is in the postbox at `now1` is still there at any later time. */
  lemma DeliveryIsFinal(l: Letter, now1: int, now2: int)
    requires now1 <= now2
    ensures InTab(Received, l, now1) ==> InTab(Received, l, now2)
    ensures InTab(Arriving, l, now2) ==> InTab(Arriving, l, now1)
    ensures InTab(Sent, l, now1) <==> InTab(Sent, l, now2)
  {
  }

  /** As time passes the postbox only gains letters and En Route only loses them,
      each in stored order; Dispatch does not depend on the time at all. */
  lemma {:induction false} TabsMonotoneInTime(letters: seq<Letter>, now1: int, now2: int)
    requires now1 <= now2
    ensures IsSubsequence(TabLetters(letters, Received, now1), TabLetters(letters, Received, now2))
    ensures IsSubsequence(TabLetters(letters, Arriving, now2), TabLetters(letters, Arriving, now1))
    ensures TabLetters(letters, Sent, now1) == TabLetters(letters, Sent, now2)
  {
    if letters != [] {
      TabsMonotoneInTime(letters[1..], now1, now2);
      DeliveryIsFinal(letters[0], now1, now2);
      SubsequenceOfCons(letters[0], TabLetters(letters[1..], Received, now1), TabLetters(letters[1..], Received, now2), InTab(Received, letters[0], now1), InTab(Received, letters[0], now2));
      SubsequenceOfCons(letters[0], TabLetters(letters[1..], Arriving, now2), TabLetters(letters[1..], Arriving, now1), InTab(Arriving, letters[0], now2), InTab(Arriving, letters[0], now1));
    }
  }

  /** Filtering one more head element keeps a subsequence relation, provided
      the head is kept on the right whenever it is kept on the left. */
  lemma SubsequenceOfCons(x: Letter, a: seq<Letter>, b: seq<Letter>, keepA: bool, keepB: bool)
    requires IsSubsequence(a, b)
    requires keepA ==> keepB
    ensures IsSubsequence((if keepA then [x] else []) + a, (if keepB then [x] else []) + b)
  {
    if keepB {
      if keepA {
        assert ([x] + a)[0] == x && ([x] + a)[1..] == a && ([x] + b)[1..] == b;
      } else {
        assert ([x] + b)[1..] == b;
        assert [] + a == a;
      }
    } else {
      assert [] + a == a && [] + b == b;
    }
  }

  /** Sending appends: the tabs of the longer list are the old tabs plus,
      at most, the new letter at the end. */
  lemma {:induction false} TabLettersAppend(letters: seq<Letter>, l: Letter, tab: LetterStatus, now: int)
    ensures TabLetters(letters + [l], tab, now) ==
      TabLetters(letters, tab, now) + (if InTab(tab, l, now) then [l] else [])
  {
    var tail := if InTab(tab, l, now) then [l] else [];
    if letters == [] {
      assert [] + [l] == [l];
      TabLettersCons([l], tab, now);
    } else {
      var x, rest := letters[0], letters[1..];
      var head := if InTab(tab, x, now) then [x] else [];
      assert (letters + [l])[0] == x && (letters + [l])[1..] == rest + [l];
      TabLettersCons(letters + [l], tab, now);
      TabLettersCons(letters, tab, now);
      TabLettersAppend(rest, l, tab, now);
      assert TabLetters(letters + [l], tab, now) == head + (TabLetters(rest, tab, now) + tail);
      assert head + (TabLetters(rest, tab, now) + tail) == (head + TabLetters(rest, tab, now)) + tail;
    }
  }

  /** `getContact` on the card: the recipient on Dispatch, the sender on the
      other two tabs. */
  function PersonShown(tab: LetterStatus, l: Letter, contacts: seq<Contact>): (person: Option<Contact>)
    ensures person.Some? ==> person.value in contacts
    ensures person.Some? ==> person.value.id == (if tab == Sent then l.recipientId else l.senderId)
    ensures person.Some? ==> exists i | 0 <= i < |contacts| ::
      contacts[i] == person.value && FirstWithId(contacts, if tab == Sent then l.recipientId else l.senderId, i)
    ensures person.None? <==> forall i | 0 <= i < |contacts| ::
      contacts[i].id != (if tab == Sent then l.recipientId else l.senderId)
  {
    FindContact(contacts, if tab == Sent then l.recipientId else l.senderId)
  }

  datatype CardAction = Track(letter: Letter) | Open(letter: Letter)

  /** Clicking a card tracks the letter on En Route and opens it elsewhere. */
  function ClickCard(tab: LetterStatus, l: Letter): (action: CardAction)
    ensures action.letter == l
    ensures action.Track? <==> tab == Arriving
  {
    if tab == Arriving then Track(l) else Open(l)
  }
}
