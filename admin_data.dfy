/**
 * The mock data layer of the admin panel: four resources (menu items,
 * reservations, gallery images, testimonials), each a list persisted in the
 * browser's localStorage under its own key, with the same four operations.
 *
 * The clock is an input: `now` is the millisecond timestamp used as the new id,
 * `today` the calendar day (UTC) used to stamp testimonials.
 */
module AdminData {
  import opened Json
  import opened Wrappers
  import opened RecordLists

  datatype Resource = Menu | Reservations | Gallery | Testimonials

  /** The localStorage key that holds a resource's list. */
  function StorageKey(res: Resource): string
  {
    match res
    case Menu => "admin_menu_items"
    case Reservations => "admin_reservations"
    case Gallery => "admin_gallery"
    case Testimonials => "admin_testimonials"
  }

  /** Each resource has a key of its own, so writing one list never touches another. */
  lemma StorageKeysDistinct(a: Resource, b: Resource)
    requires a != b
    ensures StorageKey(a) != StorageKey(b)
  {
    match a
    case Reservations =>
      if b == Testimonials { assert StorageKey(a)[6] != StorageKey(b)[6]; }
    case Testimonials =>
      if b == Reservations { assert StorageKey(a)[6] != StorageKey(b)[6]; }
    case _ =>
  }

  lemma OtherKeys(res: Resource)
    ensures forall other :: other != res ==> StorageKey(other) != StorageKey(res)
  {
    forall other | other != res ensures StorageKey(other) != StorageKey(res) {
      StorageKeysDistinct(other, res);
    }
  }

  /** The message of the error an update on a missing id throws. */
  function NotFoundMessage(res: Resource): string
  {
    match res
    case Menu => "Item not found"
    case Reservations => "Reservation not found"
    case Gallery => "Item not found"
    case Testimonials => "Testimonial not found"
  }

  // ---------------------------------------------------------------------------
  // The entities and the seeded lists

  function MenuItem(id: real, name: string, category: string, price: real, description: string, available: bool): Record
  {
    map["id" := Num(id), "name" := Str(name), "category" := Str(category), "price" := Num(price),
        "description" := Str(description), "available" := Bool(available)]
  }

  function Reservation(id: real, name: string, email: string, date: string, time: string, guests: real, status: string): Record
  {
    map["id" := Num(id), "name" := Str(name), "email" := Str(email), "date" := Str(date),
        "time" := Str(time), "guests" := Num(guests), "status" := Str(status)]
  }

  function GalleryItem(id: real, title: string, url: string, alt: string): Record
  {
    map["id" := Num(id), "title" := Str(title), "url" := Str(url), "alt" := Str(alt)]
  }

  function Testimonial(id: real, name: string, rating: real, comment: string, date: string): Record
  {
    map["id" := Num(id), "name" := Str(name), "rating" := Num(rating), "comment" := Str(comment), "date" := Str(date)]
  }

  /** The list `getAll` falls back to when nothing usable is stored. */
  function Seed(res: Resource): seq<Record>
  {
    match res
    case Menu => [
      MenuItem(1.0, "Grilled Salmon", "Main Course", 28.99, "Fresh Atlantic salmon with herbs", true),
      MenuItem(2.0, "Caesar Salad", "Appetizer", 12.99, "Classic Caesar with parmesan", true),
      MenuItem(3.0, "Beef Tenderloin", "Main Course", 34.99, "Premium cut with red wine sauce", false)]
    case Reservations => [
      Reservation(1.0, "John Doe", "john@example.com", "2024-01-15", "19:00", 4.0, "confirmed"),
      Reservation(2.0, "Jane Smith", "jane@example.com", "2024-01-16", "20:00", 2.0, "pending"),
      Reservation(3.0, "Mike Johnson", "mike@example.com", "2024-01-17", "18:30", 6.0, "confirmed")]
    case Gallery => [
      GalleryItem(1.0, "Restaurant Interior", "/api/placeholder/400/300", "Restaurant interior view"),
      GalleryItem(2.0, "Chef Special", "/api/placeholder/400/300", "Chef preparing special dish"),
      GalleryItem(3.0, "Dining Area", "/api/placeholder/400/300", "Elegant dining area")]
    case Testimonials => [
      Testimonial(1.0, "Sarah Wilson", 5.0, "Amazing food and service!", "2024-01-10"),
      Testimonial(2.0, "David Brown", 4.0, "Great atmosphere and delicious food.", "2024-01-08"),
      Testimonial(3.0, "Emily Davis", 5.0, "Best restaurant in town!", "2024-01-05")]
  }

  // ---------------------------------------------------------------------------
  // The day stamp: `new Date().toISOString().split('T')[0]`

  datatype Day = Day(year: nat, month: nat, day: nat)

  /** The days `toISOString` writes with a four-digit year. */
  predicate ValidDay(d: Day)
  {
    d.year <= 9999 && 1 <= d.month <= 12 && 1 <= d.day <= 31
  }

  function Digit(n: nat): (c: char)
    requires n < 10
    ensures '0' <= c <= '9' && c as int - '0' as int == n
  {
    (n + '0' as int) as char
  }

  function DigitValue(c: char): nat
    requires '0' <= c <= '9'
  {
    c as int - '0' as int
  }

  predicate IsDigit(c: char)
  {
    '0' <= c <= '9'
  }

  /** `YYYY-MM-DD`. */
  function IsoDay(d: Day): (s: string)
    requires ValidDay(d)
    ensures |s| == 10 && s[4] == '-' && s[7] == '-'
    ensures forall k :: 0 <= k < 10 && k != 4 && k != 7 ==> IsDigit(s[k])
  {
    [Digit(d.year / 1000), Digit(d.year / 100 % 10), Digit(d.year / 10 % 10), Digit(d.year % 10), '-',
     Digit(d.month / 10), Digit(d.month % 10), '-',
     Digit(d.day / 10), Digit(d.day % 10)]
  }

  /** Reads a `YYYY-MM-DD` string back into a day. */
  function ParseIsoDay(s: string): Option<Day>
  {
    if |s| == 10 && s[4] == '-' && s[7] == '-' && forall k :: 0 <= k < 10 && k != 4 && k != 7 ==> IsDigit(s[k]) then
      Some(Day(
        1000 * DigitValue(s[0]) + 100 * DigitValue(s[1]) + 10 * DigitValue(s[2]) + DigitValue(s[3]),
        10 * DigitValue(s[5]) + DigitValue(s[6]),
        10 * DigitValue(s[8]) + DigitValue(s[9])))
    else None
  }

  /** The day stamp reads back as the day it was written from. */
  lemma IsoDayRoundTrip(d: Day)
    requires ValidDay(d)
    ensures ParseIsoDay(IsoDay(d)) == Some(d)
  {
    var s := IsoDay(d);
    assert |s| == 10 && s[4] == '-' && s[7] == '-';
    FourDigits(d.year);
    TwoDigits(d.month);
    TwoDigits(d.day);
    assert s[..4] == [Digit(d.year / 1000), Digit(d.year / 100 % 10), Digit(d.year / 10 % 10), Digit(d.year % 10)];
  }

  lemma FourDigits(y: nat)
    requires y <= 9999
    ensures y == 1000 * (y / 1000) + 100 * (y / 100 % 10) + 10 * (y / 10 % 10) + y % 10
    ensures y / 1000 < 10
  {
    assert y == 1000 * (y / 1000) + y % 1000;
    assert y % 1000 == 100 * (y / 100 % 10) + y % 100;
    assert y % 100 == 10 * (y / 10 % 10) + y % 10;
  }

  lemma TwoDigits(m: nat)
    requires m <= 31
    ensures m == 10 * (m / 10) + m % 10 && m / 10 < 10
  {
  }

  // ---------------------------------------------------------------------------
  // Pure parts of the operations

  /**
   * The record `create` stores and returns: the caller's fields with `id` set to the
   * timestamp and, for a testimonial, `date` set to the current day. Both come after
   * the spread, so they win over any `id` or `date` the caller passed.
   */
  function Stamped(res: Resource, fields: Record, now: nat, today: Day): (r: Record)
    requires ValidDay(today)
    ensures Field(r, "id") == Num(now as real)
    ensures res == Testimonials ==> Field(r, "date") == Str(IsoDay(today))
    ensures res != Testimonials ==> r.Keys == fields.Keys + {"id"}
    ensures res == Testimonials ==> r.Keys == fields.Keys + {"id", "date"}
    ensures forall k :: k in fields && k != "id" && (res == Testimonials ==> k != "date") ==> r[k] == fields[k]
  {
    if res == Testimonials then fields + map["id" := Num(now as real), "date" := Str(IsoDay(today))]
    else fields + map["id" := Num(now as real)]
  }

  /** What `update` returns once the merged list has been written back: the first record now carrying `id`. */
  function UpdateOutcome(res: Resource, merged: seq<Record>, id: real): (r: Result<Record>)
    ensures r.Err? <==> forall x :: x in merged ==> Field(x, "id") != Num(id)
    ensures r.Err? ==> r.message == NotFoundMessage(res)
    ensures r.Ok? ==> r.value in merged && Field(r.value, "id") == Num(id)
  {
    match Find(merged, "id", Num(id))
    case Some(x) => Ok(x)
    case None => Err(NotFoundMessage(res))
  }

  /**
   * Updating a present id with fields that leave `id` alone returns the first
   * record with that id, merged: the listed fields overwritten, the others kept.
   */
  lemma UpdatePresent(res: Resource, items: seq<Record>, id: real, updates: Record)
    requires exists x :: x in items && Field(x, "id") == Num(id)
    requires "id" in updates ==> updates["id"] == Num(id)
    ensures var i := FindIndex(items, "id", Num(id));
            0 <= i && UpdateOutcome(res, MergeWhere(items, "id", Num(id), updates), id) == Ok(items[i] + updates)
    ensures var r := UpdateOutcome(res, MergeWhere(items, "id", Num(id), updates), id);
            var before := items[FindIndex(items, "id", Num(id))];
            r.Ok? && (forall f :: f !in updates ==> Field(r.value, f) == Field(before, f))
                  && (forall f :: f in updates ==> Field(r.value, f) == updates[f])
  {
    var i := FindIndex(items, "id", Num(id));
    var merged := MergeWhere(items, "id", Num(id), updates);
    assert merged[i] == items[i] + updates;
    assert Field(merged[i], "id") == Num(id);
    forall k | 0 <= k < i ensures Field(merged[k], "id") != Num(id) {
      assert merged[k] == items[k];
    }
    FindIndexIsFirst(merged, "id", Num(id), i);
  }

  /** Updating an absent id writes back the same list and throws the resource's "not found" error. */
  lemma UpdateAbsent(res: Resource, items: seq<Record>, id: real, updates: Record)
    requires forall x :: x in items ==> Field(x, "id") != Num(id)
    ensures MergeWhere(items, "id", Num(id), updates) == items
    ensures UpdateOutcome(res, MergeWhere(items, "id", Num(id), updates), id) == Err(NotFoundMessage(res))
  {
    var merged := MergeWhere(items, "id", Num(id), updates);
    assert forall k :: 0 <= k < |items| ==> items[k] in items;
  }

  /**
   * An update whose fields move the record to another, unused id persists the
   * change and still throws "not found": the lookup runs on the merged list.
   */
  lemma UpdateMovingIdThrows(res: Resource, items: seq<Record>, id: real, other: real, updates: Record)
    requires exists x :: x in items && Field(x, "id") == Num(id)
    requires other != id && "id" in updates && updates["id"] == Num(other)
    ensures MergeWhere(items, "id", Num(id), updates) != items
    ensures UpdateOutcome(res, MergeWhere(items, "id", Num(id), updates), id) == Err(NotFoundMessage(res))
  {
    var merged := MergeWhere(items, "id", Num(id), updates);
    var i := FindIndex(items, "id", Num(id));
    assert Field(merged[i], "id") == Num(other);
    forall x | x in merged ensures Field(x, "id") != Num(id) {
      var k :| 0 <= k < |merged| && merged[k] == x;
      if Field(items[k], "id") == Num(id) {
        assert Field(merged[k], "id") == Num(other);
      }
    }
  }

  /** Deleting an absent id leaves the list as it was. */
  lemma DeleteAbsent(items: seq<Record>, id: real)
    requires forall x :: x in items ==> Field(x, "id") != Num(id)
    ensures Where(items, "id", Num(id), false) == items
  {
    assert forall k :: 0 <= k < |items| ==> items[k] in items;
    WhereKeepsAll(items, "id", Num(id), false);
  }

  /** Deleting the id of a just-created record with a fresh id restores the list from before the creation. */
  lemma DeleteUndoesCreate(res: Resource, items: seq<Record>, fields: Record, now: nat, today: Day)
    requires ValidDay(today)
    requires forall x :: x in items ==> Field(x, "id") != Num(now as real)
    ensures Where(items + [Stamped(res, fields, now, today)], "id", Num(now as real), false) == items
  {
    var created := Stamped(res, fields, now, today);
    WhereAppend(items, [created], "id", Num(now as real), false);
    DeleteAbsent(items, now as real);
  }

  /** A fresh id keeps the ids of a list unique when the created record is appended. */
  lemma CreateKeepsIdsUnique(res: Resource, items: seq<Record>, fields: Record, now: nat, today: Day)
    requires ValidDay(today)
    requires UniqueAt(items, "id")
    requires forall x :: x in items ==> Field(x, "id") != Num(now as real)
    ensures UniqueAt(items + [Stamped(res, fields, now, today)], "id")
  {
    AppendFreshKeepsUnique(items, "id", Stamped(res, fields, now, today));
  }

  // ---------------------------------------------------------------------------
  // Dashboard statistics

  /** The counts shown on the dashboard (the revenue figure is a placeholder and is not modelled). */
  datatype Stats = Stats(totalReservations: nat, pendingReservations: nat, menuItems: nat, galleryImages: nat, testimonials: nat)

  /** The reservations whose status is exactly 'pending'. */
  function Pending(reservations: seq<Record>): (r: seq<Record>)
    ensures forall x :: x in r <==> x in reservations && Field(x, "status") == Str("pending")
    ensures forall x :: multiset(r)[x] == if Field(x, "status") == Str("pending") then multiset(reservations)[x] else 0
  {
    WhereCounts(reservations, "status", Str("pending"), true);
    Where(reservations, "status", Str("pending"), true)
  }

  function StatsOf(menu: seq<Record>, reservations: seq<Record>, gallery: seq<Record>, testimonials: seq<Record>): (s: Stats)
    ensures s.totalReservations == |reservations| && s.pendingReservations == |Pending(reservations)|
    ensures s.pendingReservations <= s.totalReservations
    ensures s.menuItems == |menu| && s.galleryImages == |gallery| && s.testimonials == |testimonials|
  {
    Stats(|reservations|, |Pending(reservations)|, |menu|, |gallery|, |testimonials|)
  }

  // ---------------------------------------------------------------------------
  // The store

  /**
   * The admin data kept in localStorage. A stored entry is `Some(list)` when its
   * text parses as JSON and `None` when it does not; a missing key and an
   * unparseable entry both make `getAll` fall back to the seed. Without a window
   * (server-side rendering) nothing is read or written.
   */
  class AdminStore {
    const hasWindow: bool
    var storage: map<string, Option<seq<Record>>>

    constructor (hasWindow: bool, storage: map<string, Option<seq<Record>>>)
      ensures this.hasWindow == hasWindow && this.storage == storage
    {
      this.hasWindow := hasWindow;
      this.storage := storage;
    }

    /** `getFromStorage(key, default)`. */
    function Load(key: string, default: seq<Record>): (r: seq<Record>)
      reads this
      ensures hasWindow && key in storage && storage[key].Some? ==> r == storage[key].value
      ensures !hasWindow || key !in storage || storage[key].None? ==> r == default
    {
      if hasWindow && key in storage && storage[key].Some? then storage[key].value else default
    }

    /** The list a resource's `getAll` resolves to in the current state. */
    function Contents(res: Resource): seq<Record>
      reads this
    {
      Load(StorageKey(res), Seed(res))
    }

    /** `setToStorage(key, value)`. */
    method Save(key: string, value: seq<Record>)
      modifies this
      ensures storage == if hasWindow then old(storage)[key := Some(value)] else old(storage)
    {
      if hasWindow {
        storage := storage[key := Some(value)];
      }
    }

    /** `getAll`: the stored list when there is one that parses, otherwise the seed. */
    method GetAll(res: Resource) returns (items: seq<Record>)
      ensures hasWindow && StorageKey(res) in storage && storage[StorageKey(res)].Some? ==>
                items == storage[StorageKey(res)].value
      ensures !hasWindow || StorageKey(res) !in storage || storage[StorageKey(res)].None? ==>
                items == Seed(res)
    {
      items := Load(StorageKey(res), Seed(res));
    }

    /** `create`: appends the stamped record to the stored list and returns it. */
    method Create(res: Resource, fields: Record, now: nat, today: Day) returns (created: Record)
      requires ValidDay(today)
      modifies this
      ensures created == Stamped(res, fields, now, today)
      ensures storage == if hasWindow then old(storage)[StorageKey(res) := Some(old(Contents(res)) + [created])]
                         else old(storage)
      ensures hasWindow ==> Contents(res) == old(Contents(res)) + [created]
      ensures forall other :: other != res ==> Contents(other) == old(Contents(other))
    {
      OtherKeys(res);
      var items := GetAll(res);
      created := Stamped(res, fields, now, today);
      Save(StorageKey(res), items + [created]);
    }

    /**
     * `update`: merges `updates` into every record whose id is `id`, writes the list
     * back, then looks the id up in the written list and throws when it is missing.
     */
    method Update(res: Resource, id: real, updates: Record) returns (r: Result<Record>)
      modifies this
      ensures var merged := MergeWhere(old(Contents(res)), "id", Num(id), updates);
              && storage == (if hasWindow then old(storage)[StorageKey(res) := Some(merged)] else old(storage))
              && r == UpdateOutcome(res, merged, id)
      ensures forall other :: other != res ==> Contents(other) == old(Contents(other))
    {
      OtherKeys(res);
      var items := GetAll(res);
      var merged := MergeWhere(items, "id", Num(id), updates);
      Save(StorageKey(res), merged);
      r := UpdateOutcome(res, merged, id);
    }

    /** `delete`: writes back the records whose id differs; an absent id is no error. */
    method Delete(res: Resource, id: real)
      modifies this
      ensures storage == if hasWindow then old(storage)[StorageKey(res) := Some(Where(old(Contents(res)), "id", Num(id), false))]
                         else old(storage)
      ensures hasWindow ==> forall x :: x in Contents(res) ==> Field(x, "id") != Num(id)
      ensures forall other :: other != res ==> Contents(other) == old(Contents(other))
    {
      OtherKeys(res);
      var items := GetAll(res);
      Save(StorageKey(res), Where(items, "id", Num(id), false));
    }

    /** `getDashboardStats`: the counts over the four lists as `getAll` returns them. */
    method GetDashboardStats() returns (s: Stats)
      ensures s.totalReservations == |Contents(Reservations)|
      ensures s.pendingReservations == |Pending(Contents(Reservations))|
      ensures s.menuItems == |Contents(Menu)| && s.galleryImages == |Contents(Gallery)|
      ensures s.testimonials == |Contents(Testimonials)|
    {
      var menu := GetAll(Menu);
      var reservations := GetAll(Reservations);
      var gallery := GetAll(Gallery);
      var testimonials := GetAll(Testimonials);
      s := StatsOf(menu, reservations, gallery, testimonials);
    }
  }
}
