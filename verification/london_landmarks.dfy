/** The shared test fixture: a queue over fifteen fixed London landmarks that
    is refilled and reshuffled whenever it runs empty, and hands out its head
    as a fresh reminder. */
module LondonLandmarks {
  import opened Results
  import opened Reminders
  import opened Permutations

  /** One fixture entry. Unlike the reminder shapes, its longitude is not nullable. */
  datatype Landmark = Landmark(
    title: Option<string>,
    description: Option<string>,
    location: Option<string>,
    latitude: Option<Double>,
    longitude: Double)

  const FixtureSize := 15

  /** A fixture landmark, named by its position in the order the fixture adds
      them (0 is Big Ben, 14 The British Museum). Landmarks compare by value
      and no two of the fifteen are equal (`FixtureAtInjective`), so a queue
      of positions is the queue of landmarks. */
  type LandmarkIndex = i: nat | i < FixtureSize

  /** The fixture landmark added at position `i`. Every one is in London. */
  function FixtureAt(i: LandmarkIndex): (r: Landmark)
    ensures r.location == Some("London")
    ensures r.title.Some? && r.description.Some? && r.latitude.Some?
  {
    Landmark(Some(Title(i)), Some(Description(i)), Some("London"),
             Some(Double(Latitude(i))), Double(Longitude(i)))
  }

  /** Title of the landmark at position `i`. */
  function Title(i: LandmarkIndex): string
  {
    if i == 0 then "Big Ben"
    else if i == 1 then "Buckingham Palace"
    else if i == 2 then "Westminster Abbey"
    else if i == 3 then "Madame Tussauds"
    else if i == 4 then "Tower Bridge"
    else if i == 5 then "Tower of London"
    else if i == 6 then "Hyde Park"
    else if i == 7 then "The Shard"
    else if i == 8 then "St. Paul's Cathedral"
    else if i == 9 then "Tate Modern"
    else if i == 10 then "Royal Albert Hall"
    else if i == 11 then "Trafalgar Square"
    else if i == 12 then "Kensington Palace"
    else if i == 13 then "Science Museum"
    else "The British Museum"
  }

  /** Description of the landmark at position `i`. */
  function Description(i: LandmarkIndex): string
  {
    if i == 0 then "16-storey Gothic clocktower and national symbol at the Eastern end of the Houses of Parliament."
    else if i == 1 then "Visitors can tour the palace's opulent private and state rooms or watch the changing of the guard."
    else if i == 2 then ""
    else if i == 3 then "Museum chain for life-size wax replicas of famous celebrities & historic icons in themed galleries."
    else if i == 4 then "Panoramic views from high level walkways and behind-the-scenes access to original lifting machinery."
    else if i == 5 then "Centuries of bloody history around a medieval castle, home to Crown Jewels and iconic Beefeaters."
    else if i == 6 then "Huge green space, home to Diana Memorial Fountain, with boating and swimming in the Serpentine lake."
    else if i == 7 then "87-floor glass skyscraper with a jagged peak, with restaurants, offices, hotel and viewing platform."
    else if i == 8 then "Churchyard and gardens outside Saint Paul's cathedral, with a floor-plan of the original building."
    else if i == 9 then "Modern-art gallery with international works on display, plus a cafe with panoramic river views."
    else if i == 10 then "One of Britain's great Victorian splendours, most famous for the Proms classical music festival."
    else if i == 11 then "Nelson's Column rises above this iconic square's LED-lit fountains, artworks and lion statues."
    else if i == 12 then "Royal palace and gardens, with exhibits on former residents like Queen Victoria and Princess Diana."
    else if i == 13 then "A vast treasury of science and invention, famous for its state-of-the-art interactive exhibits."
    else "Huge showcase for global antiquities, including Egyptian mummies and ancient Greek sculptures."
  }

  /** Latitude of the landmark at position `i`, as its decimal literal. */
  function Latitude(i: LandmarkIndex): string
  {
    if i == 0 then "51.5007292"
    else if i == 1 then "51.501364"
    else if i == 2 then "51.4994245"
    else if i == 3 then "51.5230174"
    else if i == 4 then "51.5054564"
    else if i == 5 then "51.5081124"
    else if i == 6 then "51.5072682"
    else if i == 7 then "51.5045"
    else if i == 8 then "51.5138453"
    else if i == 9 then "51.5074691"
    else if i == 10 then "51.5009088"
    else if i == 11 then "51.50809"
    else if i == 12 then "51.5038918"
    else if i == 13 then "51.4978095"
    else "51.5194133"
  }

  /** Longitude of the landmark at position `i`, as its decimal literal. */
  function Longitude(i: LandmarkIndex): string
  {
    if i == 0 then "-0.1268141"
    else if i == 1 then "-0.1440787"
    else if i == 2 then "-0.1297526"
    else if i == 3 then "-0.15655"
    else if i == 4 then "-0.0775452"
    else if i == 5 then "-0.078138"
    else if i == 6 then "-0.167919"
    else if i == 7 then "-0.0886887"
    else if i == 8 then "-0.1005393"
    else if i == 9 then "-0.1020116"
    else if i == 10 then "-0.1795547"
    else if i == 11 then "-0.1291379"
    else if i == 12 then "-0.1936707"
    else if i == 13 then "-0.1832782"
    else "-0.1291453"
  }

  /** The fixture's titles, listed independently of `Title`. */
  const FixtureTitles: set<string> := {
    "Big Ben", "Buckingham Palace", "Westminster Abbey", "Madame Tussauds",
    "Tower Bridge", "Tower of London", "Hyde Park", "The Shard",
    "St. Paul's Cathedral", "Tate Modern", "Royal Albert Hall",
    "Trafalgar Square", "Kensington Palace", "Science Museum",
    "The British Museum"
  }

  /** The queue (the companion object's private list); it starts empty. */
  type Queue = seq<LandmarkIndex>
  const Initial: Queue := []

  function ItemsCount(q: Queue): (n: nat)
    ensures n == 0 <==> q == Initial
  {
    |q|
  }

  /** Clears the queue, refills it with the fifteen landmarks and reorders them
      by `shuffle`, the exchanges the random shuffle happened to make. Whatever
      was queued before is gone: the result is every landmark exactly once. */
  function GenerateShuffledData(q: Queue, shuffle: seq<Swap>): (q': Queue)
    requires SwapsWithin(shuffle, FixtureSize)
    ensures ItemsCount(q') == FixtureSize
    ensures forall i: LandmarkIndex :: i in q'
    ensures Distinct(q')
  {
    ShuffledPositions(FixtureSize, shuffle)
  }

  /** The queue as it stands just before an item is taken: refilled if empty. */
  function Refilled(q: Queue, shuffle: seq<Swap>): (q': Queue)
    requires SwapsWithin(shuffle, FixtureSize)
    ensures |q| > 0 ==> q' == q
    ensures |q| == 0 ==> ItemsCount(q') == FixtureSize && Distinct(q')
  {
    if ItemsCount(q) == 0 then GenerateShuffledData(q, shuffle) else q
  }

  /** Removes the head, refilling first if the queue is empty. A queue without
      repetitions never hands out a landmark that is still queued. */
  function Pop(q: Queue, shuffle: seq<Swap>): (res: (LandmarkIndex, Queue))
    requires SwapsWithin(shuffle, FixtureSize)
    ensures |q| > 0 ==> res.0 == q[0] && res.1 == q[1..]
    ensures ItemsCount(res.1) == if ItemsCount(q) == 0 then FixtureSize - 1 else ItemsCount(q) - 1
    ensures Distinct(q) ==> Distinct(res.1) && res.0 !in res.1
  {
    var full := Refilled(q, shuffle);
    assert forall k :: 0 <= k < |full| - 1 ==> full[1..][k] == full[k + 1];
    (full[0], full[1..])
  }

  /** Hands out the next landmark as a storage reminder with the given fresh id. */
  function GetNextDTOItem(q: Queue, shuffle: seq<Swap>, id: ReminderId): (res: (ReminderDTO, Queue))
    requires SwapsWithin(shuffle, FixtureSize)
    ensures var head := FixtureAt(Refilled(q, shuffle)[0]);
      && res.0.title == head.title
      && res.0.description == head.description
      && res.0.location == head.location
      && res.0.latitude == head.latitude
      && res.0.longitude == Some(head.longitude)
      && res.0.id == id
    ensures res.1 == Refilled(q, shuffle)[1..]
  {
    var (i, rest) := Pop(q, shuffle);
    var item := FixtureAt(i);
    (ReminderDTO(item.title, item.description, item.location, item.latitude, Some(item.longitude), id), rest)
  }

  /** Hands out the next landmark as a UI reminder with the given fresh id. */
  function GetNextDataItem(q: Queue, shuffle: seq<Swap>, id: ReminderId): (res: (ReminderDataItem, Queue))
    requires SwapsWithin(shuffle, FixtureSize)
    ensures var head := FixtureAt(Refilled(q, shuffle)[0]);
      && res.0.title == head.title
      && res.0.description == head.description
      && res.0.location == head.location
      && res.0.latitude == head.latitude
      && res.0.longitude == Some(head.longitude)
      && res.0.id == id
    ensures res.1 == Refilled(q, shuffle)[1..]
  {
    var (i, rest) := Pop(q, shuffle);
    var item := FixtureAt(i);
    (ReminderDataItem(item.title, item.description, item.location, item.latitude, Some(item.longitude), id), rest)
  }

  /** Takes one item per entry of `shuffles`, each refill using that entry. */
  function PopMany(q: Queue, shuffles: seq<seq<Swap>>): Queue
    requires forall k :: 0 <= k < |shuffles| ==> SwapsWithin(shuffles[k], FixtureSize)
    decreases |shuffles|
  {
    if |shuffles| == 0 then q else PopMany(Pop(q, shuffles[0]).1, shuffles[1..])
  }

  // ---------------------------------------------------------------- lemmas

  /** Different positions hold different landmarks: already their titles differ. */
  lemma FixtureAtInjective(i: LandmarkIndex, j: LandmarkIndex)
    ensures Title(i) == Title(j) ==> i == j
    ensures FixtureAt(i) == FixtureAt(j) ==> i == j
  {
  }

  /** Every fixture landmark is in London and carries one of the fixture's titles. */
  lemma FixtureIsLondonLandmarks(i: LandmarkIndex)
    ensures FixtureAt(i).location == Some("London")
    ensures FixtureAt(i).title.Some? && FixtureAt(i).title.value in FixtureTitles
  {
  }

  /** Whatever the queue holds, the item handed out is a London landmark of the fixture. */
  lemma HandedOutItemsAreLondonLandmarks(q: Queue, shuffle: seq<Swap>, id: ReminderId)
    requires SwapsWithin(shuffle, FixtureSize)
    ensures var dto := GetNextDTOItem(q, shuffle, id).0;
      dto.location == Some("London") && dto.title.Some? && dto.title.value in FixtureTitles
    ensures var item := GetNextDataItem(q, shuffle, id).0;
      item.location == Some("London") && item.title.Some? && item.title.value in FixtureTitles
  {
    FixtureIsLondonLandmarks(Refilled(q, shuffle)[0]);
  }

  /** Both ways of taking the next item copy the same fields and leave the same queue. */
  lemma NextItemsAgree(q: Queue, shuffle: seq<Swap>, id: ReminderId)
    requires SwapsWithin(shuffle, FixtureSize)
    ensures var (dto, q1) := GetNextDTOItem(q, shuffle, id);
      var (item, q2) := GetNextDataItem(q, shuffle, id);
      && q1 == q2
      && dto.title == item.title && dto.description == item.description
      && dto.location == item.location && dto.latitude == item.latitude
      && dto.longitude == item.longitude && dto.id == item.id
  {
  }

  /** The count after `n` takes from a queue holding `c`: it runs down to
      zero, and from then on every take refills to fifteen before removing one. */
  function CountAfter(c: nat, n: nat): nat
  {
    if n <= c then c - n
    else (FixtureSize - (n - c) % FixtureSize) % FixtureSize
  }

  lemma {:induction false} PopManyCount(q: Queue, shuffles: seq<seq<Swap>>)
    requires forall k :: 0 <= k < |shuffles| ==> SwapsWithin(shuffles[k], FixtureSize)
    ensures ItemsCount(PopMany(q, shuffles)) == CountAfter(ItemsCount(q), |shuffles|)
    decreases |shuffles|
  {
    if |shuffles| > 0 {
      var q1 := Pop(q, shuffles[0]).1;
      PopManyCount(q1, shuffles[1..]);
      CountAfterStep(|q|, |shuffles|);
    }
  }

  /** One take: from an empty queue the refill leaves 14, otherwise one fewer. */
  lemma CountAfterStep(c: nat, n: nat)
    requires n > 0
    ensures CountAfter(c, n) == CountAfter(if c == 0 then FixtureSize - 1 else c - 1, n - 1)
  {
    if c == 0 {
      CountAfterRefill(n - 1);
    }
  }

  /** Taking `m` more items from a freshly refilled-and-popped queue (14 left)
      matches taking `m + 1` from an empty one. */
  lemma CountAfterRefill(m: nat)
    ensures CountAfter(FixtureSize - 1, m) == CountAfter(0, m + 1)
  {
  }

  /** From any empty queue, the count after `n` takes is `(15 - n % 15) % 15`. */
  lemma EmptyPopManyCount(q: Queue, shuffles: seq<seq<Swap>>)
    requires ItemsCount(q) == 0
    requires forall k :: 0 <= k < |shuffles| ==> SwapsWithin(shuffles[k], FixtureSize)
    ensures ItemsCount(PopMany(q, shuffles)) ==
      (FixtureSize - |shuffles| % FixtureSize) % FixtureSize
  {
    PopManyCount(q, shuffles);
  }

  /** The queue never holds a landmark twice, however many items are taken. */
  lemma {:induction false} PopManyKeepsDistinct(q: Queue, shuffles: seq<seq<Swap>>)
    requires forall k :: 0 <= k < |shuffles| ==> SwapsWithin(shuffles[k], FixtureSize)
    requires Distinct(q)
    ensures Distinct(PopMany(q, shuffles))
    decreases |shuffles|
  {
    if |shuffles| > 0 {
      PopManyKeepsDistinct(Pop(q, shuffles[0]).1, shuffles[1..]);
    }
  }
}
