/**
 * The amenity admin screen (src/components/admin/AmenityManager.tsx): a
 * searchable table of amenities and one form that creates and edits them. The
 * visible rows are computed on every render rather than kept in state.
 */
module Amenities {
  import opened Lists
  import opened Text
  import opened Api

  datatype Amenity = Amenity(id: int, name: string, description: string, icon: Option<string>)

  predicate MatchesTerm(a: Amenity, term: string) {
    ContainsCI(a.name, term) || ContainsCI(a.description, term)
  }

  /** `filteredAmenities`: the search filter is applied always, even to an empty term. */
  function FilteredAmenities(amenities: seq<Amenity>, term: string): (r: seq<Amenity>)
    ensures IsSubsequence(r, amenities)
    ensures forall x :: x in r <==> x in amenities && MatchesTerm(x, term)
  {
    FilterIsSubsequence(amenities, (a: Amenity) => MatchesTerm(a, term));
    Filter(amenities, (a: Amenity) => MatchesTerm(a, term))
  }

  /** Since every text contains the empty string, an empty search shows every amenity in order. */
  lemma EmptySearchShowsAll(amenities: seq<Amenity>)
    ensures FilteredAmenities(amenities, "") == amenities
  {
    FilterAll(amenities, (a: Amenity) => MatchesTerm(a, ""));
  }

  /** Searching again within the result changes nothing. */
  lemma SearchIdempotent(amenities: seq<Amenity>, term: string)
    ensures FilteredAmenities(FilteredAmenities(amenities, term), term) == FilteredAmenities(amenities, term)
  {
    var m := (a: Amenity) => MatchesTerm(a, term);
    FilterAll(Filter(amenities, m), m);
  }

  /** The icon column: the icon text, or `-` when it is missing or empty. */
  function IconCell(a: Amenity): (t: string)
    ensures t != ""
    ensures a.icon.Some? && a.icon.value != "" ==> t == a.icon.value
    ensures !(a.icon.Some? && a.icon.value != "") ==> t == "-"
  {
    if a.icon.Some? && a.icon.value != "" then a.icon.value else "-"
  }

  function EmptyMessage(term: string): (m: string)
    ensures m == "No amenities found." <==> term == ""
  {
    if term != "" then "No amenities found matching your search." else "No amenities found."
  }

  /** The form, sent as it is. */
  datatype AmenityForm = AmenityForm(name: string, description: string, icon: string)

  const BlankForm: AmenityForm := AmenityForm("", "", "")

  /** The browser's own check before the form's submit handler runs: the name is `required`. */
  predicate FormAccepted(f: AmenityForm)
  {
    f.name != ""
  }

  function EditForm(a: Amenity): (f: AmenityForm)
    ensures f.name == a.name && f.description == a.description
    ensures a.icon.None? ==> f.icon == ""
    ensures a.icon.Some? ==> f.icon == a.icon.value
  {
    AmenityForm(a.name, a.description, if a.icon.Some? then a.icon.value else "")
  }

  datatype AmenityCall = Create(form: AmenityForm) | Update(id: int, form: AmenityForm) | Delete(id: int)

  /** The write a save sends: an update of the amenity being edited, or a create. */
  function SaveCall(editing: Option<Amenity>, f: AmenityForm): (c: AmenityCall)
    ensures c.Update? <==> editing.Some?
    ensures c.Update? ==> c.id == editing.value.id
    ensures !c.Delete? && c.form == f
  {
    if editing.Some? then Update(editing.value.id, f) else Create(f)
  }

  class AmenityScreen {
    var amenities: seq<Amenity>
    var loading: bool
    var searchTerm: string
    var modalOpen: bool
    var editing: Option<Amenity>
    var form: AmenityForm
    var calls: seq<AmenityCall>

    /** Every amenity created or updated so far was sent with a form the browser accepts. */
    ghost predicate WritesAccepted()
      reads this`calls
    {
      forall c :: c in calls && !c.Delete? ==> FormAccepted(c.form)
    }

    constructor ()
      ensures amenities == [] && loading && searchTerm == ""
      ensures !modalOpen && editing.None? && form == BlankForm && calls == []
      ensures WritesAccepted()
    {
      amenities := [];
      loading := true;
      searchTerm := "";
      modalOpen := false;
      editing := None;
      form := BlankForm;
      calls := [];
    }

    /** The rows the table shows. */
    function Visible(): (r: seq<Amenity>)
      reads this
      ensures searchTerm == "" ==> r == amenities
      ensures IsSubsequence(r, amenities)
    {
      EmptySearchShowsAll(amenities);
      FilteredAmenities(amenities, searchTerm)
    }

    /** `fetchAmenities`: a failure keeps the old list; loading ends either way. */
    method FetchAmenities(result: Response<seq<Amenity>>)
      modifies this`amenities, this`loading
      ensures !loading
      ensures amenities == if result.Ok? then result.payload else old(amenities)
    {
      loading := true;
      if result.Ok? {
        amenities := result.payload;
      }
      loading := false;
    }

    method SetSearchTerm(term: string)
      modifies this`searchTerm
      ensures searchTerm == term
    {
      searchTerm := term;
    }

    method OpenCreate()
      modifies this`editing, this`form, this`modalOpen
      ensures editing.None? && form == BlankForm && modalOpen
    {
      editing := None;
      form := BlankForm;
      modalOpen := true;
    }

    method OpenEdit(a: Amenity)
      modifies this`editing, this`form, this`modalOpen
      ensures editing == Some(a) && form == EditForm(a) && modalOpen
    {
      editing := Some(a);
      form := EditForm(a);
      modalOpen := true;
    }

    /** After a successful save: the modal closes and the form is reset to a blank one in create mode. */
    method CloseModal()
      modifies this`modalOpen, this`editing, this`form
      ensures !modalOpen && editing.None? && form == BlankForm
    {
      modalOpen := false;
      editing := None;
      form := BlankForm;
    }

    method UpdateForm(f: AmenityForm)
      modifies this`form
      ensures form == f
    {
      form := f;
    }

    /** `handleSubmit`: the write, then a re-fetch and a reset of the modal when the write succeeded. */
    method Submit(write: Response<()>, refetch: Response<seq<Amenity>>)
      requires FormAccepted(form)
      modifies this`calls, this`amenities, this`loading, this`modalOpen, this`editing, this`form
      ensures searchTerm == old(searchTerm)
      ensures calls == old(calls) + [SaveCall(old(editing), old(form))]
      ensures old(WritesAccepted()) ==> WritesAccepted()
      ensures write.Ok? ==> !modalOpen && editing.None? && form == BlankForm && !loading
      ensures write.Ok? ==> amenities == if refetch.Ok? then refetch.payload else old(amenities)
      ensures write.Failed? ==>
                modalOpen == old(modalOpen) && editing == old(editing) && form == old(form) &&
                amenities == old(amenities) && loading == old(loading)
    {
      calls := calls + [SaveCall(editing, form)];
      if write.Ok? {
        FetchAmenities(refetch);
        CloseModal();
      }
    }

    /** The delete button: only after the confirmation dialog is accepted. */
    method DeleteAmenity(id: int, confirmed: bool, write: Response<()>, refetch: Response<seq<Amenity>>)
      modifies this`calls, this`amenities, this`loading
      ensures searchTerm == old(searchTerm)
      ensures modalOpen == old(modalOpen) && editing == old(editing) && form == old(form)
      ensures calls == if confirmed then old(calls) + [Delete(id)] else old(calls)
      ensures old(WritesAccepted()) ==> WritesAccepted()
      ensures amenities == if confirmed && write.Ok? && refetch.Ok? then refetch.payload else old(amenities)
      ensures loading == if confirmed && write.Ok? then false else old(loading)
    {
      if confirmed {
        calls := calls + [Delete(id)];
        if write.Ok? {
          FetchAmenities(refetch);
        }
      }
    }
  }
}
