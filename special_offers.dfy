/**
 * The special-offer admin screen (src/components/admin/SpecialOfferManager.tsx):
 * a list narrowed by a search term and an active/inactive filter, a status
 * badge computed from the dates, and one form that both creates and edits.
 */
module SpecialOffers {
  import opened Lists
  import opened Text
  import opened Api

  datatype Offer = Offer(
    id: int, title: string, description: string, discount: int,
    validFrom: string, validUntil: string, isActive: bool,
    hotelId: Option<int>, roomTypeId: Option<int>)

  // ---------------------------------------------------------------------------
  // The list

  predicate MatchesTerm(o: Offer, term: string) {
    ContainsCI(o.title, term) || ContainsCI(o.description, term)
  }

  /**
   * The status filter: `active` and `inactive` test the offer's flag; any other
   * value, `all` included, keeps everything.
   */
  predicate MatchesStatus(o: Offer, status: string) {
    (status == "active" ==> o.isActive) && (status == "inactive" ==> !o.isActive)
  }

  /** `applyFilters`: the search filter when a term is typed, then the status filter. */
  function ApplyFilters(offers: seq<Offer>, term: string, status: string): seq<Offer>
  {
    var bySearch := if term != "" then Filter(offers, (o: Offer) => MatchesTerm(o, term)) else offers;
    if status == "active" then Filter(bySearch, (o: Offer) => o.isActive)
    else if status == "inactive" then Filter(bySearch, (o: Offer) => !o.isActive)
    else bySearch
  }

  predicate Listed(o: Offer, term: string, status: string) {
    (term == "" || MatchesTerm(o, term)) && MatchesStatus(o, status)
  }

  /** The list shows exactly the offers passing both tests, in their fetched order. */
  lemma ApplyFiltersSelectsListed(offers: seq<Offer>, term: string, status: string)
    ensures ApplyFilters(offers, term, status) == Filter(offers, (o: Offer) => Listed(o, term, status))
    ensures IsSubsequence(ApplyFilters(offers, term, status), offers)
  {
    var t := (o: Offer) => term == "" || MatchesTerm(o, term);
    var s := (o: Offer) => MatchesStatus(o, status);
    var l := (o: Offer) => Listed(o, term, status);
    var bySearch := if term != "" then Filter(offers, (o: Offer) => MatchesTerm(o, term)) else offers;
    assert bySearch == Filter(offers, t) by {
      if term == "" {
        FilterAll(offers, t);
      } else {
        FilterCongruent(offers, (o: Offer) => MatchesTerm(o, term), t);
      }
    }
    assert ApplyFilters(offers, term, status) == Filter(bySearch, s) by {
      if status == "active" {
        FilterCongruent(bySearch, (o: Offer) => o.isActive, s);
      } else if status == "inactive" {
        FilterCongruent(bySearch, (o: Offer) => !o.isActive, s);
      } else {
        FilterAll(bySearch, s);
      }
    }
    FilterFilter(offers, t, s, l);
    FilterIsSubsequence(offers, l);
  }

  /** An empty list explains itself differently when a term or a status filter is set. */
  function EmptyMessage(term: string, status: string): (m: string)
    ensures m == "No special offers found." <==> term == "" && status == "all"
  {
    if term != "" || status != "all" then "No special offers found matching your filters."
    else "No special offers found."
  }

  // ---------------------------------------------------------------------------
  // The status badge

  /**
   * `isOfferActive`: the flag is on and the current time lies between the two
   * dates, both ends included. `dateOf` is the browser's date parser; an
   * unreadable date (`None`) makes the comparisons false.
   */
  predicate IsOfferActive(o: Offer, now: int, dateOf: string -> Option<int>) {
    o.isActive &&
    dateOf(o.validFrom).Some? && dateOf(o.validUntil).Some? &&
    dateOf(o.validFrom).value <= now <= dateOf(o.validUntil).value
  }

  /** Every offer whose badge reads "Active" survives the `active` filter. */
  lemma ActiveBadgeImpliesListed(offers: seq<Offer>, term: string, o: Offer, now: int, dateOf: string -> Option<int>)
    requires o in offers && (term == "" || MatchesTerm(o, term))
    requires IsOfferActive(o, now, dateOf)
    ensures o in ApplyFilters(offers, term, "active")
  {
    ApplyFiltersSelectsListed(offers, term, "active");
  }

  /**
   * The converse fails: the `active` filter tests only the flag, so an expired
   * offer is listed under "Active" with an "Inactive" badge.
   */
  lemma ExpiredOfferListedAsActive(now: int)
    ensures var o := Offer(1, "", "", 10, "a", "b", true, None, None);
            var dateOf := (d: string) => if d == "a" then Some(now - 2) else Some(now - 1);
            o in ApplyFilters([o], "", "active") && !IsOfferActive(o, now, dateOf)
  {
    var o := Offer(1, "", "", 10, "a", "b", true, None, None);
    assert Filter([o], (x: Offer) => x.isActive) == [o];
  }

  // ---------------------------------------------------------------------------
  // The form

  /** The form's fields; the two ids are the texts of number inputs, empty when unset. */
  datatype OfferForm = OfferForm(
    title: string, description: string, discount: IntParse,
    validFrom: string, validUntil: string, isActive: bool,
    hotelId: string, roomTypeId: string)

  /** The form after "Add Offer" and after a successful save. */
  const BlankForm: OfferForm := OfferForm("", "", Num(0), "", "", true, "", "")

  /**
   * The browser's own check before the form's submit handler runs: the title
   * and both dates are `required`, and the discount is a number within its
   * `min` 0 and `max` 100.
   */
  predicate FormAccepted(f: OfferForm)
  {
    f.title != "" && f.discount.Num? && 0 <= f.discount.n <= 100 && f.validFrom != "" && f.validUntil != ""
  }

  /** `id?.toString() || ''`: an id's decimal text (never empty, `0` included), or empty. */
  function IdField(id: Option<int>): (t: string)
    ensures id.None? <==> t == ""
  {
    if id.Some? then IntToString(id.value) else ""
  }

  /** `handleEdit`'s form: the offer's fields, each date cut before its `T`. */
  function EditForm(o: Offer): (f: OfferForm)
    ensures f.title == o.title && f.description == o.description && f.discount == Num(o.discount)
    ensures f.isActive == o.isActive
    ensures f.validFrom <= o.validFrom && 'T' !in f.validFrom
    ensures |f.validFrom| < |o.validFrom| ==> o.validFrom[|f.validFrom|] == 'T'
    ensures f.validUntil <= o.validUntil && 'T' !in f.validUntil
    ensures |f.validUntil| < |o.validUntil| ==> o.validUntil[|f.validUntil|] == 'T'
    ensures f.hotelId == IdField(o.hotelId) && f.roomTypeId == IdField(o.roomTypeId)
  {
    FirstPieceIsPrefix(o.validFrom, 'T');
    FirstPieceIsPrefix(o.validUntil, 'T');
    OfferForm(o.title, o.description, Num(o.discount), FirstPiece(o.validFrom, 'T'),
              FirstPiece(o.validUntil, 'T'), o.isActive, IdField(o.hotelId), IdField(o.roomTypeId))
  }

  /** A date stored without a time part is shown unchanged in the form. */
  lemma EditKeepsPlainDates(o: Offer)
    requires 'T' !in o.validFrom && 'T' !in o.validUntil
    ensures EditForm(o).validFrom == o.validFrom && EditForm(o).validUntil == o.validUntil
  {
    FirstPieceIsPrefix(o.validFrom, 'T');
    FirstPieceIsPrefix(o.validUntil, 'T');
  }

  /** What the form sends: the ids parsed when their text is non-empty, left out otherwise. */
  datatype OfferPayload = OfferPayload(
    title: string, description: string, discount: IntParse,
    validFrom: string, validUntil: string, isActive: bool,
    hotelId: Option<IntParse>, roomTypeId: Option<IntParse>)

  /** A payload within the form's limits: a titled, dated offer whose discount is 0..100. */
  predicate WithinFormLimits(p: OfferPayload)
  {
    p.title != "" && p.discount.Num? && 0 <= p.discount.n <= 100 && p.validFrom != "" && p.validUntil != ""
  }

  function SubmitId(text: string): (r: Option<IntParse>)
    ensures r.None? <==> text == ""
  {
    if text != "" then Some(ParseInt(text)) else None
  }

  function SubmitData(f: OfferForm): (p: OfferPayload)
    ensures p.hotelId == SubmitId(f.hotelId) && p.roomTypeId == SubmitId(f.roomTypeId)
    ensures p.title == f.title && p.description == f.description && p.discount == f.discount
    ensures p.validFrom == f.validFrom && p.validUntil == f.validUntil && p.isActive == f.isActive
  {
    OfferPayload(f.title, f.description, f.discount, f.validFrom, f.validUntil, f.isActive,
                 SubmitId(f.hotelId), SubmitId(f.roomTypeId))
  }

  /** Editing an offer and saving it unchanged sends back its own hotel and room-type ids. */
  lemma EditThenSubmitKeepsIds(o: Offer)
    ensures SubmitData(EditForm(o)).hotelId == (if o.hotelId.Some? then Some(Num(o.hotelId.value)) else None)
    ensures SubmitData(EditForm(o)).roomTypeId == (if o.roomTypeId.Some? then Some(Num(o.roomTypeId.value)) else None)
  {
    if o.hotelId.Some? {
      ParseIntToString(o.hotelId.value);
    }
    if o.roomTypeId.Some? {
      ParseIntToString(o.roomTypeId.value);
    }
  }

  /** A backend call made by the screen. */
  datatype OfferCall = Create(payload: OfferPayload) | Update(id: int, payload: OfferPayload) | Delete(id: int)

  /** The write a save sends: an update of the offer being edited, or a create. */
  function SaveCall(editing: Option<Offer>, f: OfferForm): (c: OfferCall)
    ensures c.Update? <==> editing.Some?
    ensures c.Update? ==> c.id == editing.value.id
    ensures !c.Delete? && c.payload == SubmitData(f)
  {
    if editing.Some? then Update(editing.value.id, SubmitData(f)) else Create(SubmitData(f))
  }

  /** A form the browser accepts is saved as a payload within the form's limits. */
  lemma AcceptedFormSavedWithinLimits(editing: Option<Offer>, f: OfferForm)
    requires FormAccepted(f)
    ensures WithinFormLimits(SaveCall(editing, f).payload)
  {
  }

  class OfferScreen {
    var offers: seq<Offer>
    var filteredOffers: seq<Offer>
    var loading: bool
    var searchTerm: string
    var statusFilter: string
    var modalOpen: bool
    var editing: Option<Offer>
    var form: OfferForm
    /** The writes sent to the backend, in order. */
    var calls: seq<OfferCall>

    /** Once the filter effect has run, the table shows the filtered offers. */
    ghost predicate Valid()
      reads this
    {
      filteredOffers == ApplyFilters(offers, searchTerm, statusFilter)
    }

    /** Every offer created or updated so far was sent within the form's limits. */
    ghost predicate WritesWithinLimits()
      reads this`calls
    {
      forall c :: c in calls && !c.Delete? ==> WithinFormLimits(c.payload)
    }

    constructor ()
      ensures Valid() && offers == [] && loading
      ensures searchTerm == "" && statusFilter == "all"
      ensures !modalOpen && editing.None? && form == BlankForm && calls == []
      ensures WritesWithinLimits()
    {
      offers, filteredOffers := [], [];
      loading := true;
      searchTerm, statusFilter := "", "all";
      modalOpen := false;
      editing := None;
      form := BlankForm;
      calls := [];
    }

    method Refilter()
      modifies this`filteredOffers
      ensures Valid()
    {
      filteredOffers := ApplyFilters(offers, searchTerm, statusFilter);
    }

    /** `fetchOffers` and the filter effect after it: a failure keeps the old list. */
    method FetchOffers(result: Response<seq<Offer>>)
      modifies this`offers, this`filteredOffers, this`loading
      ensures Valid() && !loading
      ensures offers == if result.Ok? then result.payload else old(offers)
    {
      loading := true;
      if result.Ok? {
        offers := result.payload;
        filteredOffers := result.payload;
      }
      loading := false;
      Refilter();
    }

    method SetSearchTerm(term: string)
      modifies this`searchTerm, this`filteredOffers
      ensures Valid() && searchTerm == term
    {
      searchTerm := term;
      Refilter();
    }

    method SetStatusFilter(status: string)
      modifies this`statusFilter, this`filteredOffers
      ensures Valid() && statusFilter == status
    {
      statusFilter := status;
      Refilter();
    }

    /** "Add Offer": a blank form in create mode. */
    method OpenCreate()
      modifies this`editing, this`form, this`modalOpen
      ensures editing.None? && form == BlankForm && modalOpen
    {
      editing := None;
      form := BlankForm;
      modalOpen := true;
    }

    /** The edit button of a row: the form holds that offer. */
    method OpenEdit(o: Offer)
      modifies this`editing, this`form, this`modalOpen
      ensures editing == Some(o) && form == EditForm(o) && modalOpen
    {
      editing := Some(o);
      form := EditForm(o);
      modalOpen := true;
    }

    /** After a successful save: the modal closes and the form is reset to a blank one in create mode. */
    method CloseModal()
      modifies this`modalOpen, this`editing, this`form
      ensures !modalOpen && editing.None? && form == BlankForm
    {
      modalOpen := false;
      editing := None;
      form := BlankForm;
    }

    /** Typing into the form. */
    method UpdateForm(f: OfferForm)
      modifies this`form
      ensures form == f
    {
      form := f;
    }

    /**
     * `handleSubmit`: an update of the offer being edited or a create, then a
     * re-fetch; the modal closes and the form clears only when the write
     * succeeded. A failed write is logged and leaves the modal as it was.
     */
    method Submit(write: Response<()>, refetch: Response<seq<Offer>>)
      requires Valid() && FormAccepted(form)
      modifies this`calls, this`offers, this`filteredOffers, this`loading, this`modalOpen, this`editing, this`form
      ensures Valid()
      ensures searchTerm == old(searchTerm) && statusFilter == old(statusFilter)
      ensures calls == old(calls) + [SaveCall(old(editing), old(form))]
      ensures old(WritesWithinLimits()) ==> WritesWithinLimits()
      ensures write.Ok? ==> !modalOpen && editing.None? && form == BlankForm && !loading
      ensures write.Ok? ==> offers == if refetch.Ok? then refetch.payload else old(offers)
      ensures write.Failed? ==>
                modalOpen == old(modalOpen) && editing == old(editing) && form == old(form) &&
                offers == old(offers) && loading == old(loading)
    {
      AcceptedFormSavedWithinLimits(editing, form);
      Record(SaveCall(editing, form));
      if write.Ok? {
        FetchOffers(refetch);
        CloseModal();
      }
    }

    /** A write sent to the backend. */
    method Record(c: OfferCall)
      requires !c.Delete? ==> WithinFormLimits(c.payload)
      modifies this`calls
      ensures calls == old(calls) + [c]
      ensures old(WritesWithinLimits()) ==> WritesWithinLimits()
    {
      calls := calls + [c];
    }

    /** The delete button: only after the confirmation dialog is accepted. */
    method DeleteOffer(id: int, confirmed: bool, write: Response<()>, refetch: Response<seq<Offer>>)
      requires Valid()
      modifies this`calls, this`offers, this`filteredOffers, this`loading
      ensures Valid()
      ensures searchTerm == old(searchTerm) && statusFilter == old(statusFilter)
      ensures modalOpen == old(modalOpen) && editing == old(editing) && form == old(form)
      ensures calls == if confirmed then old(calls) + [Delete(id)] else old(calls)
      ensures old(WritesWithinLimits()) ==> WritesWithinLimits()
      ensures offers == if confirmed && write.Ok? && refetch.Ok? then refetch.payload else old(offers)
      ensures loading == if confirmed && write.Ok? then false else old(loading)
    {
      if confirmed {
        Record(Delete(id));
        if write.Ok? {
          FetchOffers(refetch);
        }
      }
    }
  }
}
