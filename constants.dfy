// constants.ts: the delivery estimator and the seed tables.

module Constants {
  import opened Types

  /** Simulated couriers cover 100 km in one hour. */
  const KmPerHour: int := 100
  const MsPerHour: int := 60 * 60 * 1000
  /** Milliseconds of transit per kilometre: 3,600,000 / 100. */
  const MsPerKm: int := 36000

  /** `calculateDeliveryTimeMs`: (distanceKm / 100) hours, in milliseconds.
      Distances in this model are whole kilometres and the product is exact;
      the floating-point rounding of the division is not modelled. */
  function DeliveryTimeMs(distanceKm: int): (ms: int)
    ensures ms * KmPerHour == distanceKm * MsPerHour
  {
    distanceKm * MsPerKm
  }

  lemma HundredKmIsOneHour()
    ensures DeliveryTimeMs(100) == MsPerHour == 3600000
  {
  }

  lemma DeliveryTimeSign(d: int)
    ensures DeliveryTimeMs(0) == 0
    ensures d >= 0 ==> DeliveryTimeMs(d) >= 0
    ensures d > 0 ==> DeliveryTimeMs(d) > 0
  {
  }

  lemma DeliveryTimeMonotone(d1: int, d2: int)
    requires d1 <= d2
    ensures DeliveryTimeMs(d1) <= DeliveryTimeMs(d2)
  {
  }

  lemma DeliveryTimeAdditive(a: int, b: int)
    ensures DeliveryTimeMs(a + b) == DeliveryTimeMs(a) + DeliveryTimeMs(b)
  {
  }

  /** 450 km take four and a half hours. */
  lemma DeliveryTimeOfLondon()
    ensures DeliveryTimeMs(450) == 16200000 == 4 * MsPerHour + MsPerHour / 2
  {
  }

  /** The font classes offered by the editor, first one the default. */
  function Fonts(): (fonts: seq<string>)
    ensures |fonts| == 4 && fonts[0] == "serif"
  {
    ["serif", "font-sans", "handwritten", "font-mono"]
  }

  function PaperTypes(): (papers: seq<Paper>)
    ensures |papers| == 4 && papers[0].name == "Parchment"
  {
    [ Paper("Parchment", "bg-[#f4e4bc] border-[#d4c49c]"),
      Paper("Clean White", "bg-white border-gray-200"),
      Paper("Cotton Blue", "bg-[#ebf4f5] border-[#c4d4d5]"),
      Paper("Rose Petal", "bg-[#fff0f3] border-[#ffd6e0]") ]
  }

  function StampDesigns(): (designs: seq<string>)
    ensures |designs| == 10
  {
    [ "\U{1F54A}\U{FE0F}", "\U{2709}\U{FE0F}", "\U{1F339}", "\U{1F33F}", "\U{2728}",
      "\U{1F56F}\U{FE0F}", "\U{1F3BB}", "\U{2615}", "\U{1F4DC}", "\U{1F390}" ]
  }

  /** The contacts every fresh installation starts with. */
  function MockContacts(): (contacts: seq<Contact>)
    ensures |contacts| == 4
  {
    [ Contact("1", "Alice Wonder", "https://picsum.photos/seed/alice/100", "London, UK", 450),
      Contact("2", "Bob Builder", "https://picsum.photos/seed/bob/100", "Tokyo, Japan", 9500),
      Contact("3", "Charlie Brown", "https://picsum.photos/seed/charlie/100", "New York, USA", 5600),
      Contact("4", "Diana Prince", "https://picsum.photos/seed/diana/100", "Paris, France", 210) ]
  }

  lemma MockContactsWellFormed()
    ensures forall i, j | 0 <= i < j < |MockContacts()| ::
      MockContacts()[i].id != MockContacts()[j].id && MockContacts()[i].name != MockContacts()[j].name
    ensures forall i | 0 <= i < |MockContacts()| :: MockContacts()[i].distanceKm > 0
  {
  }
}
