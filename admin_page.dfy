/**
 * The admin page's controller: the four lists it holds in memory, the dashboard
 * counts it derives from them, and the list updates each management panel
 * applies once a request to the backend settles.
 */
module AdminPage {
  import opened Json
  import opened Wrappers
  import opened RecordLists
  import AdminData

  /** How a request settled: `fetch` or `.json()` threw, or the reply body arrived. */
  datatype Reply = Threw | Replied(body: Record)

  /** The page's state: the four lists, the dashboard counts, the loading flag. */
  datatype Page = Page(
    menuItems: seq<Record>,
    reservations: seq<Record>,
    gallery: seq<Record>,
    testimonials: seq<Record>,
    stats: AdminData.Stats,
    loading: bool)

  /** The four lists the mount fetch produced, or the failure of any of the requests. */
  datatype Fetch = FetchFailed | FetchedAll(menu: seq<Record>, reservations: seq<Record>, gallery: seq<Record>, testimonials: seq<Record>)

  // ---------------------------------------------------------------------------
  // Reservations panel: the status filter

  /** `filteredReservations`: everything under 'all', otherwise the reservations with exactly that status. */
  function FilteredReservations(reservations: seq<Record>, filter: string): (r: seq<Record>)
    ensures filter == "all" ==> r == reservations
    ensures filter != "all" ==> forall x :: x in r <==> x in reservations && Field(x, "status") == Str(filter)
    ensures filter != "all" ==>
              forall x :: multiset(r)[x] == if Field(x, "status") == Str(filter) then multiset(reservations)[x] else 0
    ensures IsSubsequence(r, reservations)
  {
    WhereCounts(reservations, "status", Str(filter), true);
    WhereIsSubsequence(reservations, "status", Str(filter), true);
    if filter == "all" then
      assert IsSubsequence(reservations, reservations) by { SubsequenceOfItself(reservations); }
      reservations
    else Where(reservations, "status", Str(filter), true)
  }

  /** Applying the same status filter again shows the same reservations. */
  lemma FilterIdempotent(reservations: seq<Record>, filter: string)
    ensures FilteredReservations(FilteredReservations(reservations, filter), filter) == FilteredReservations(reservations, filter)
  {
    if filter != "all" {
      WhereIdempotent(reservations, "status", Str(filter), true);
    }
  }

  // ---------------------------------------------------------------------------
  // Loading and the dashboard

  /**
   * The mount fetch settling: on success the four lists are taken as received and
   * the counts derived from them; on failure nothing but the loading flag changes.
   */
  function AfterFetchAll(p: Page, f: Fetch): (q: Page)
    ensures !q.loading
    ensures f.FetchFailed? ==> q == p.(loading := false)
    ensures f.FetchedAll? ==> q.menuItems == f.menu && q.reservations == f.reservations
                              && q.gallery == f.gallery && q.testimonials == f.testimonials
    ensures f.FetchedAll? ==> q.stats.totalReservations == |f.reservations|
                              && q.stats.pendingReservations == |FilteredReservations(f.reservations, "pending")|
                              && q.stats.pendingReservations <= q.stats.totalReservations
                              && q.stats.menuItems == |f.menu| && q.stats.galleryImages == |f.gallery|
                              && q.stats.testimonials == |f.testimonials|
  {
    match f
    case FetchFailed => p.(loading := false)
    case FetchedAll(menu, reservations, gallery, testimonials) =>
      Page(menu, reservations, gallery, testimonials,
           AdminData.StatsOf(menu, reservations, gallery, testimonials), false)
  }

  /** The dashboard's "Recent Reservations": the first three, in list order. */
  function RecentReservations(reservations: seq<Record>): (r: seq<Record>)
    ensures |r| == if |reservations| < 3 then |reservations| else 3
    ensures r == reservations[..|r|]
  {
    reservations[..if |reservations| < 3 then |reservations| else 3]
  }

  // ---------------------------------------------------------------------------
  // Forms

  /** A panel's form: the record being edited (menu only), whether the form is shown, its fields. */
  datatype Form = Form(editing: Option<Record>, showAddForm: bool, data: Record)

  const BlankMenuForm: Record :=
    map["name" := Str(""), "category" := Str(""), "price" := Str(""), "description" := Str(""), "available" := Bool(true)]
  const BlankGalleryForm: Record := map["title" := Str(""), "url" := Str(""), "alt" := Str("")]
  const BlankTestimonialForm: Record := map["name" := Str(""), "rating" := Num(5.0), "comment" := Str("")]

  /** `handleEdit`: the item becomes the one being edited, its fields fill the form, the form opens. */
  function EditMenuItem(form: Form, item: Record): (f: Form)
    ensures f.editing == Some(item) && f.data == item && f.showAddForm
  {
    Form(Some(item), true, item)
  }

  // ---------------------------------------------------------------------------
  // List updates after a request settles

  /**
   * The menu panel's `handleSubmit`. Editing replaces exactly the entries whose
   * `_id` is the edited item's `_id` by the reply; adding appends the reply. On
   * success the form is cleared and closed; when the request throws, list and form
   * stay as they were.
   */
  function SubmitMenu(items: seq<Record>, form: Form, reply: Reply): (r: (seq<Record>, Form))
    ensures reply.Threw? ==> r == (items, form)
    ensures reply.Replied? && form.editing.Some? ==>
              var id := Field(form.editing.value, "_id");
              && |r.0| == |items|
              && (forall k :: 0 <= k < |items| && Field(items[k], "_id") != id ==> r.0[k] == items[k])
              && (forall k :: 0 <= k < |items| && Field(items[k], "_id") == id ==> r.0[k] == reply.body)
    ensures reply.Replied? && form.editing.None? ==>
              |r.0| == |items| + 1 && r.0[..|items|] == items && r.0[|items|] == reply.body
    ensures reply.Replied? ==> r.1 == Form(None, false, BlankMenuForm)
  {
    match reply
    case Threw => (items, form)
    case Replied(body) =>
      var updated :=
        if form.editing.Some? then ReplaceWhere(items, "_id", Field(form.editing.value, "_id"), body)
        else items + [body];
      (updated, Form(None, false, BlankMenuForm))
  }

  /** The two panels that only add entries. */
  datatype AddPanel = GalleryPanel | TestimonialsPanel

  /** The form fields a panel starts with and returns to after a successful add. */
  function BlankForm(panel: AddPanel): Record
  {
    match panel
    case GalleryPanel => BlankGalleryForm
    case TestimonialsPanel => BlankTestimonialForm
  }

  /**
   * The gallery and testimonials panels' `handleSubmit`: the reply is appended
   * after every prior entry and the form is reset to the panel's blank fields and
   * closed; a thrown request changes nothing.
   */
  function SubmitNew(panel: AddPanel, items: seq<Record>, form: Form, reply: Reply): (r: (seq<Record>, Form))
    ensures reply.Threw? ==> r == (items, form)
    ensures reply.Replied? ==> |r.0| == |items| + 1 && r.0[..|items|] == items && r.0[|items|] == reply.body
    ensures reply.Replied? ==> r.1 == Form(form.editing, false, BlankForm(panel))
  {
    match reply
    case Threw => (items, form)
    case Replied(body) => (items + [body], form.(showAddForm := false, data := BlankForm(panel)))
  }

  /**
   * Every panel's `handleDelete`: once the DELETE request resolves (whatever its
   * status) the entries with that `_id` are dropped and the rest keep their order;
   * a thrown request changes nothing.
   */
  function AfterDelete(items: seq<Record>, id: Value, reply: Reply): (r: seq<Record>)
    ensures reply.Threw? ==> r == items
    ensures reply.Replied? ==> forall x :: x in r <==> x in items && Field(x, "_id") != id
    ensures reply.Replied? ==> forall x :: multiset(r)[x] == if Field(x, "_id") != id then multiset(items)[x] else 0
    ensures reply.Replied? ==> IsSubsequence(r, items)
  {
    WhereCounts(items, "_id", id, false);
    WhereIsSubsequence(items, "_id", id, false);
    if reply.Threw? then items else Where(items, "_id", id, false)
  }

  /**
   * Two deletes started from the same rendered list, `a` settling first, as
   * written: each handler filters the list it captured when it was invoked, so
   * the one that settles last sets the list from that stale copy.
   */
  function TwoDeletesAsWritten(rendered: seq<Record>, a: Value, b: Value): (r: seq<Record>)
    ensures forall x :: x in r <==> x in rendered && Field(x, "_id") != b
  {
    // `a`'s handler sets this list first; `b`'s handler then overwrites it.
    var afterA := AfterDelete(rendered, a, Replied(map[]));
    var afterB := AfterDelete(rendered, b, Replied(map[]));
    afterB
  }

  /** The entry the first delete removed comes back. */
  lemma OverlappingDeletesRestore(rendered: seq<Record>, a: Value, b: Value, x: Record)
    requires x in rendered && Field(x, "_id") == a && a != b
    ensures x in TwoDeletesAsWritten(rendered, a, b)
  {
  }

  /**
   * The intended behaviour: each delete filters the list current when its
   * request settles (a functional state update), so both entries are gone and
   * every other entry keeps its count.
   */
  function TwoDeletes(rendered: seq<Record>, a: Value, b: Value): (r: seq<Record>)
    ensures forall x :: multiset(r)[x] ==
                        if Field(x, "_id") != a && Field(x, "_id") != b then multiset(rendered)[x] else 0
  {
    var afterA := AfterDelete(rendered, a, Replied(map[]));
    AfterDelete(afterA, b, Replied(map[]))
  }

  /** With functional updates the order in which the two deletes settle does not matter. */
  lemma TwoDeletesCommute(rendered: seq<Record>, a: Value, b: Value)
    ensures TwoDeletes(rendered, a, b) == TwoDeletes(rendered, b, a)
  {
    WhereCommute(rendered, "_id", a, b);
  }

  /** The statuses the reservations panel can set. */
  datatype NewStatus = Confirmed | Cancelled

  function StatusName(s: NewStatus): string
  {
    match s
    case Confirmed => "confirmed"
    case Cancelled => "cancelled"
  }

  /** The body of the status-change request: the status and nothing else. */
  function StatusBody(s: NewStatus): (b: Record)
    ensures b.Keys == {"status"} && b["status"] == Str(StatusName(s))
  {
    map["status" := Str(StatusName(s))]
  }

  /** The buttons on a reservation's row. */
  datatype RowAction = Confirm | Remove

  /**
   * A reservation's row offers "Confirm" exactly when it is pending, and always
   * the delete button; no row offers "cancelled".
   */
  function RowActions(reservation: Record): (r: seq<RowAction>)
    ensures Remove in r
    ensures Confirm in r <==> Field(reservation, "status") == Str("pending")
    ensures |r| <= 2
  {
    (if Field(reservation, "status") == Str("pending") then [Confirm] else []) + [Remove]
  }

  /** The status-change request a row's button sends, if any. */
  function StatusRequest(action: RowAction): Option<Record>
  {
    match action
    case Confirm => Some(StatusBody(Confirmed))
    case Remove => None
  }

  /** Every status change the panel can send sets 'confirmed', and only on a pending reservation. */
  lemma RowStatusRequests(reservation: Record, action: RowAction)
    requires action in RowActions(reservation) && StatusRequest(action).Some?
    ensures StatusRequest(action).value == map["status" := Str("confirmed")]
    ensures Field(reservation, "status") == Str("pending")
  {
  }

  /**
   * `handleStatusChange`: the reply replaces only the reservations with that
   * `_id`; the others and the length are unchanged; a thrown request changes nothing.
   */
  function ChangeStatus(reservations: seq<Record>, id: Value, reply: Reply): (r: seq<Record>)
    ensures reply.Threw? ==> r == reservations
    ensures |r| == |reservations|
    ensures forall k :: 0 <= k < |r| && Field(reservations[k], "_id") != id ==> r[k] == reservations[k]
    ensures reply.Replied? ==> forall k :: 0 <= k < |r| && Field(reservations[k], "_id") == id ==> r[k] == reply.body
  {
    match reply
    case Threw => reservations
    case Replied(body) => ReplaceWhere(reservations, "_id", id, body)
  }

  /**
   * When the `_id`s are unique and the reply keeps the `_id`, confirming a
   * reservation leaves every `_id` where it was and keeps them unique.
   */
  lemma ChangeStatusKeepsIds(reservations: seq<Record>, id: Value, body: Record)
    requires UniqueAt(reservations, "_id")
    requires Field(body, "_id") == id
    ensures var r := ChangeStatus(reservations, id, Replied(body));
            (forall k :: 0 <= k < |r| ==> Field(r[k], "_id") == Field(reservations[k], "_id")) && UniqueAt(r, "_id")
  {
  }
}
