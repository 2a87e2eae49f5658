/** The contact section (src/app/components/Contact.tsx): its network of
    drifting points, the lines between close points, and the grouping of
    the contact methods into three lists. */
module ContactSection {
  import opened Wrappers
  import opened Seqs
  import opened Motion
  import opened Contacts

  // ---------------------------------------------------------------------
  // Points

  /** A point of the network: position and speed per axis, size and hue. */
  datatype Point = Point(x: Axis, y: Axis, size: real, hue: real)

  /** `pointCount`: 40 below 768 pixels of window width, 70 from there. */
  function PointCount(innerWidth: int): (n: nat)
    ensures n == 40 <==> innerWidth < 768
    ensures n == 70 <==> innerWidth >= 768
  {
    if innerWidth < 768 then 40 else 70
  }

  /** `maxDistance` and the opacity of a line at distance 0. */
  const MaxDistance := 150.0
  const LineOpacityBase := 0.15

  /** A random draw: a value in `[0, 1)`. */
  predicate IsDraw(d: real) { 0.0 <= d < 1.0 }

  ghost predicate Draws(draw: nat -> real) {
    forall n: nat :: IsDraw(draw(n))
  }

  /** The point pushed by turn `k` of the creation loop: the draws `6k` to
      `6k + 5`, read as x, y, vx, vy, size and hue. */
  function NewPoint(draw: nat -> real, k: nat, width: real, height: real): Point {
    var b := 6 * k;
    Point(
      Axis(draw(b) * width, (draw(b + 2) - 0.5) * 0.4),
      Axis(draw(b + 1) * height, (draw(b + 3) - 0.5) * 0.4),
      draw(b + 4) * 2.0 + 1.0,
      draw(b + 5) * 40.0 + 200.0)
  }

  lemma ScaleDraw(d: real, extent: real)
    requires IsDraw(d) && extent >= 0.0
    ensures 0.0 <= d * extent <= extent
  {
    assert extent - d * extent == (1.0 - d) * extent;
  }

  /** With draws in `[0, 1)` a new point starts on the canvas, with a speed
      below 0.2 along each axis, a size in `[1, 3)` and a hue in
      `[200, 240)`, from blue to purple. */
  lemma NewPointRanges(draw: nat -> real, k: nat, width: real, height: real)
    requires Draws(draw) && width >= 0.0 && height >= 0.0
    ensures var p := NewPoint(draw, k, width, height);
      && 0.0 <= p.x.pos <= width && 0.0 <= p.y.pos <= height
      && -0.2 <= p.x.speed < 0.2 && -0.2 <= p.y.speed < 0.2
      && 1.0 <= p.size < 3.0 && 200.0 <= p.hue < 240.0
  {
    var b := 6 * k;
    assert IsDraw(draw(b)) && IsDraw(draw(b + 1)) && IsDraw(draw(b + 2));
    assert IsDraw(draw(b + 3)) && IsDraw(draw(b + 4)) && IsDraw(draw(b + 5));
    ScaleDraw(draw(b), width);
    ScaleDraw(draw(b + 1), height);
    var p := NewPoint(draw, k, width, height);
    assert p.x.pos == draw(b) * width && p.y.pos == draw(b + 1) * height;
  }

  /** One frame for one point: `p.x += p.vx; p.y += p.vy;` and a speed
      component reversed when its new coordinate is outside the canvas. */
  function StepPoint(p: Point, width: real, height: real): (q: Point)
    ensures q.x.pos == p.x.pos + p.x.speed && q.y.pos == p.y.pos + p.y.speed
    ensures q.size == p.size && q.hue == p.hue
  {
    Point(Bounce(p.x, width), Bounce(p.y, height), p.size, p.hue)
  }

  /** `n` frames in a row, with the canvas left as it is. */
  function StepPointN(p: Point, width: real, height: real, n: nat): Point
    decreases n
  {
    if n == 0 then p else StepPointN(StepPoint(p, width, height), width, height, n - 1)
  }

  /** While the canvas keeps its size, a point created on it stays within
      one speed-step of it for ever, its speed never changes size, and its
      size and hue never change. */
  lemma {:induction false} StepPointForever(p: Point, width: real, height: real, n: nat)
    requires width >= 0.0 && height >= 0.0
    requires NearRange(p.x, width) && NearRange(p.y, height)
    ensures var q := StepPointN(p, width, height, n);
      && NearRange(q.x, width) && NearRange(q.y, height)
      && q.x == BounceN(p.x, width, n) && q.y == BounceN(p.y, height, n)
      && q.size == p.size && q.hue == p.hue
    decreases n
  {
    if n > 0 {
      var q := StepPoint(p, width, height);
      BounceKeepsNear(p.x, width);
      BounceKeepsNear(p.y, height);
      StepPointForever(q, width, height, n - 1);
    }
  }

  /** The canvas shrinks under the points without regenerating them; a
      point left more than one step beyond the new right edge reverses on
      every frame and so stays outside, going back and forth. */
  lemma StrandedAfterShrink(p: Point, width: real, height: real)
    requires p.x.speed != 0.0 && p.x.pos > width + Abs(p.x.speed)
    ensures StepPoint(p, width, height).x.pos > width
    ensures StepPointN(p, width, height, 2).x == p.x
  {
    BounceStuckOutside(p.x, width);
    var q := StepPoint(p, width, height);
    assert StepPointN(p, width, height, 2) == StepPointN(q, width, height, 1) == StepPoint(q, width, height);
  }

  // ---------------------------------------------------------------------
  // The canvas

  /** The canvas: its size and the points, created once. */
  class NetworkCanvas {
    var points: seq<Point>
    var width: real
    var height: real

    predicate Valid()
      reads this
    {
      width >= 0.0 && height >= 0.0
    }

    /** The effect: `resizeCanvas()` from the container, then
        `drawConnections()`, which creates `pointCount` points on the
        canvas. */
    constructor (containerWidth: real, containerHeight: real, innerWidth: int, draw: nat -> real)
      requires containerWidth >= 0.0 && containerHeight >= 0.0 && Draws(draw)
      ensures Valid() && width == containerWidth && height == containerHeight
      ensures |points| == PointCount(innerWidth)
      ensures forall k :: 0 <= k < |points| ==> points[k] == NewPoint(draw, k, width, height)
      ensures forall k :: 0 <= k < |points| ==>
        NearRange(points[k].x, width) && NearRange(points[k].y, height)
    {
      width := containerWidth;
      height := containerHeight;
      points := [];
      new;
      var count := PointCount(innerWidth);
      for i := 0 to count
        invariant Valid() && width == containerWidth && height == containerHeight && |points| == i
        invariant forall k :: 0 <= k < i ==> points[k] == NewPoint(draw, k, width, height)
        invariant forall k :: 0 <= k < i ==> NearRange(points[k].x, width) && NearRange(points[k].y, height)
      {
        NewPointRanges(draw, i, width, height);
        points := points + [NewPoint(draw, i, width, height)];
      }
    }

    /** `resizeCanvas` on a window resize: the canvas takes the container's
        new size and the points stay exactly as they are. */
    method ResizeCanvas(containerWidth: real, containerHeight: real)
      requires Valid() && containerWidth >= 0.0 && containerHeight >= 0.0
      modifies this
      ensures Valid() && width == containerWidth && height == containerHeight
      ensures points == old(points)
    {
      width, height := containerWidth, containerHeight;
    }

    /** One frame of `animate`. Point `i` is moved first and then joined to
        every later point `j` that is closer than `maxDistance`; point `j`
        has not moved yet in this frame, so a line runs from the new place
        of `i` to the old place of `j`. */
    method Animate(distance: (Point, Point) -> real) returns (lines: seq<Connection>)
      requires Valid()
      modifies this
      ensures Valid() && width == old(width) && height == old(height)
      ensures |points| == |old(points)|
      ensures forall k :: 0 <= k < |points| ==> points[k] == StepPoint(old(points)[k], width, height)
      ensures forall k :: 0 <= k < |lines| ==>
        && lines[k].i < lines[k].j < |points|
        && distance(points[lines[k].i], old(points)[lines[k].j]) < MaxDistance
        && lines[k].alpha == LineAlpha(LineOpacityBase, MaxDistance, distance(points[lines[k].i], old(points)[lines[k].j]))
      ensures forall i: nat, j: nat :: i < j < |points| && distance(points[i], old(points)[j]) < MaxDistance ==>
        Connection(i, j, LineAlpha(LineOpacityBase, MaxDistance, distance(points[i], old(points)[j]))) in lines
      ensures forall k, m :: 0 <= k < m < |lines| ==> PairBefore(lines[k].i, lines[k].j, lines[m].i, lines[m].j)
    {
      var before, w, h := points, width, height;
      var moved := seq(|before|, k requires 0 <= k < |before| => StepPoint(before[k], w, h));
      var d := (i: nat, j: nat) => if i < |moved| && j < |before| then distance(moved[i], before[j]) else 0.0;
      lines := ConnectionLines(|before|, d, MaxDistance, LineOpacityBase);
      assert forall i: nat, j: nat :: i < j < |before| ==> d(i, j) == distance(moved[i], before[j]);
      points := moved;
    }
  }

  // ---------------------------------------------------------------------
  // Contact groups

  /** `contactCategories`: the three lists the section shows. */
  datatype ContactGroups = ContactGroups(primary: seq<Contact>, social: seq<Contact>, messaging: seq<Contact>)

  /** `primary` holds the direct contacts, `social` the social ones and
      `messaging` the professional ones, each in table order. */
  function ContactCategories(): (r: ContactGroups)
    ensures forall c :: c in r.primary <==> c in contacts && c.category == Some("direct")
    ensures forall c :: c in r.social <==> c in contacts && c.category == Some("social")
    ensures forall c :: c in r.messaging <==> c in contacts && c.category == Some("professional")
    ensures IsSubseq(r.primary, contacts) && IsSubseq(r.social, contacts) && IsSubseq(r.messaging, contacts)
  {
    FilterIsSubseq(contacts, InContactCategory("direct"));
    FilterIsSubseq(contacts, InContactCategory("social"));
    FilterIsSubseq(contacts, InContactCategory("professional"));
    ContactGroups(
      Filter(contacts, InContactCategory("direct")),
      Filter(contacts, InContactCategory("social")),
      Filter(contacts, InContactCategory("professional")))
  }

  /** With the contact table as it is, the groups hold five, one and two
      contacts: email, phone, WhatsApp, Telegram and LINE; Instagram;
      LinkedIn and GitHub. */
  lemma PrimaryContacts()
    ensures ContactCategories().primary == [EmailContact, PhoneContact, WhatsAppContact, TelegramContact, LineContact]
  {
    FilterByIndex(contacts, InContactCategory("direct"), [0, 1, 2, 3, 6],
      [EmailContact, PhoneContact, WhatsAppContact, TelegramContact, LineContact]);
  }

  lemma SocialContacts()
    ensures ContactCategories().social == [InstagramContact]
  {
    FilterByIndex(contacts, InContactCategory("social"), [5], [InstagramContact]);
  }

  lemma MessagingContacts()
    ensures ContactCategories().messaging == [LinkedinContact, GithubContact]
  {
    FilterByIndex(contacts, InContactCategory("professional"), [4, 7], [LinkedinContact, GithubContact]);
  }

  /** Every contact is in exactly one of the three groups. */
  lemma ContactGroupsPartition(c: Contact)
    requires c in contacts
    ensures c in ContactCategories().primary || c in ContactCategories().social || c in ContactCategories().messaging
    ensures !(c in ContactCategories().primary && c in ContactCategories().social)
    ensures !(c in ContactCategories().primary && c in ContactCategories().messaging)
    ensures !(c in ContactCategories().social && c in ContactCategories().messaging)
  {
  }
}
