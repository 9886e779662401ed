/**
 * The room-type admin screen (src/components/admin/RoomTypeManager.tsx): a
 * searchable list of room types and one form that creates and edits them,
 * with the amenity list edited as a single comma-separated text.
 */
module RoomTypes {
  import opened Lists
  import opened Text
  import opened Api

  datatype RoomType = RoomType(
    id: int, name: string, description: string, capacity: int, pricePerNight: real,
    amenities: Option<seq<string>>, image: Option<string>)

  // ---------------------------------------------------------------------------
  // The amenity text

  /** What a save sends for the amenity text: nothing for an empty text, else each comma-separated piece trimmed. */
  function SubmitAmenities(text: string): (r: seq<string>)
    ensures text == "" ==> r == []
    ensures text != "" ==> |r| == Count(text, ',') + 1
    ensures text != "" ==> forall i :: 0 <= i < |r| ==> r[i] == Trim(Split(text, ',')[i])
    ensures forall i :: 0 <= i < |r| ==> ',' !in r[i]
  {
    if text == "" then []
    else
      var pieces := Split(text, ',');
      var r := Map(pieces, Trim);
      forall i | 0 <= i < |r|
        ensures ',' !in r[i]
      {
        var j :| StripsTo(pieces[i], r[i], j);
        assert r[i] == pieces[i][j..j + |r[i]|];
      }
      r
  }

  /** What the edit form shows for a room type's amenities: the list joined by `", "`, or empty. */
  function EditAmenities(amenities: Option<seq<string>>): (t: string)
    ensures amenities.None? || amenities.value == [] ==> t == ""
  {
    if amenities.Some? then Join(amenities.value, ", ") else ""
  }

  function Spaced(x: string): string { " " + x }

  /** The items with a space put in front of every item but the first. */
  function SpacedTail(items: seq<string>): (r: seq<string>)
    requires |items| >= 1
    ensures |r| == |items| && r[0] == items[0]
  {
    [items[0]] + Map(items[1..], Spaced)
  }

  lemma JoinCons(x: string, rest: seq<string>, sep: string)
    ensures Join([x] + rest, sep) == if rest == [] then x else x + sep + Join(rest, sep)
  {
    assert ([x] + rest)[1..] == rest;
  }

  /** Joining with `", "` is joining with `","` after spacing every item but the first. */
  lemma {:induction false} JoinCommaSpace(items: seq<string>)
    requires |items| >= 1
    ensures Join(items, ", ") == Join(SpacedTail(items), ",")
  {
    if |items| >= 2 {
      var a, rest := items[0], items[1..];
      var b, tail := rest[0], Map(rest[1..], Spaced);
      JoinCommaSpace(rest);
      assert SpacedTail(rest) == [b] + tail;
      assert Map(rest, Spaced) == [Spaced(b)] + tail;
      assert SpacedTail(items) == [a] + ([Spaced(b)] + tail);
      var x := Join([b] + tail, ",");
      assert Join([Spaced(b)] + tail, ",") == " " + x by {
        JoinCons(Spaced(b), tail, ",");
        JoinCons(b, tail, ",");
      }
      JoinCons(a, [Spaced(b)] + tail, ",");
      JoinCons(a, rest, ", ");
      assert items == [a] + rest;
      assert a + ", " + x == a + "," + (" " + x);
    }
  }

  /**
   * Opening a room type's amenities in the form and saving them unchanged gives
   * back the same list, when its items hold no comma and no surrounding
   * whitespace, and it is not the one-item list `[""]` (which reads back as no
   * amenities).
   */
  lemma EditThenSubmitAmenities(items: seq<string>)
    requires forall i :: 0 <= i < |items| ==> ',' !in items[i] && Trim(items[i]) == items[i]
    requires items != [""]
    ensures SubmitAmenities(EditAmenities(Some(items))) == items
  {
    if items != [] {
      var p := SpacedTail(items);
      var text := Join(items, ", ");
      JoinCommaSpace(items);
      SpacedTailCommaFree(items);
      SplitJoin(p, ',');
      assert Split(text, ',') == p;
      JoinNonEmpty(items);
      TrimSpacedTail(items);
    }
  }

  lemma SpacedTailCommaFree(items: seq<string>)
    requires |items| >= 1 && forall i :: 0 <= i < |items| ==> ',' !in items[i]
    ensures forall i :: 0 <= i < |items| ==> ',' !in SpacedTail(items)[i]
  {
    forall i | 0 <= i < |items|
      ensures ',' !in SpacedTail(items)[i]
    {
      if i > 0 {
        assert SpacedTail(items)[i] == Map(items[1..], Spaced)[i - 1] == " " + items[i];
      }
    }
  }

  lemma JoinNonEmpty(items: seq<string>)
    requires items != [] && items != [""]
    ensures Join(items, ", ") != ""
  {
    if |items| >= 2 {
      JoinCons(items[0], items[1..], ", ");
      assert items == [items[0]] + items[1..];
    }
  }

  lemma TrimSpacedTail(items: seq<string>)
    requires |items| >= 1 && forall i :: 0 <= i < |items| ==> Trim(items[i]) == items[i]
    ensures Map(SpacedTail(items), Trim) == items
  {
    var p := SpacedTail(items);
    var m := Map(p, Trim);
    forall i | 0 <= i < |items|
      ensures m[i] == items[i]
    {
      if i > 0 {
        TrimSpacedAt(items, i);
      }
    }
    assert m == items;
  }

  lemma TrimSpacedAt(items: seq<string>, i: int)
    requires 1 <= i < |items| && Trim(items[i]) == items[i]
    ensures Trim(SpacedTail(items)[i]) == items[i]
  {
    assert SpacedTail(items)[i] == Map(items[1..], Spaced)[i - 1] == " " + items[i];
    TrimLeadingSpace(items[i]);
  }

  /** The card's amenity preview: the first three, and how many more there are. */
  function AmenityPreview(amenities: seq<string>): (r: (seq<string>, nat))
    ensures r.0 <= amenities && |r.0| <= 3
    ensures |r.0| + r.1 == |amenities|
    ensures r.1 > 0 ==> |r.0| == 3
  {
    if |amenities| <= 3 then (amenities, 0) else (amenities[..3], |amenities| - 3)
  }

  // ---------------------------------------------------------------------------
  // The list

  predicate MatchesTerm(r: RoomType, term: string) {
    ContainsCI(r.name, term) || ContainsCI(r.description, term)
  }

  /** `applyFilters`: the name-or-description search, only when a term is typed. */
  function ApplyFilters(roomTypes: seq<RoomType>, term: string): (r: seq<RoomType>)
    ensures term == "" ==> r == roomTypes
    ensures IsSubsequence(r, roomTypes)
    ensures forall x :: x in r <==> x in roomTypes && (term == "" || MatchesTerm(x, term))
  {
    if term == "" then
      assert IsSubsequence(roomTypes, roomTypes) by { FilterAll(roomTypes, (x: RoomType) => true); FilterIsSubsequence(roomTypes, (x: RoomType) => true); }
      roomTypes
    else
      FilterIsSubsequence(roomTypes, (x: RoomType) => MatchesTerm(x, term));
      Filter(roomTypes, (x: RoomType) => MatchesTerm(x, term))
  }

  /** A search term always finds the room types named exactly by it. */
  lemma SearchFindsExactName(roomTypes: seq<RoomType>, x: RoomType)
    requires x in roomTypes
    ensures x in ApplyFilters(roomTypes, x.name)
  {
    ContainsSelf(x.name);
  }

  function EmptyMessage(term: string): (m: string)
    ensures m == "No room types found." <==> term == ""
  {
    if term != "" then "No room types found matching your search." else "No room types found."
  }

  // ---------------------------------------------------------------------------
  // The form

  datatype RoomForm = RoomForm(
    name: string, description: string, capacity: IntParse, pricePerNight: real,
    amenities: string, image: string)

  const BlankForm: RoomForm := RoomForm("", "", Num(1), 0.0, "", "")

  /**
   * The browser's own check before the form's submit handler runs: the name is
   * `required`, the capacity a number of at least its `min` 1, and the price
   * at least its `min` 0.
   */
  predicate FormAccepted(f: RoomForm)
  {
    f.name != "" && f.capacity.Num? && f.capacity.n >= 1 && f.pricePerNight >= 0.0
  }

  function EditForm(r: RoomType): (f: RoomForm)
    ensures f.name == r.name && f.description == r.description && f.capacity == Num(r.capacity)
    ensures f.pricePerNight == r.pricePerNight
    ensures f.amenities == EditAmenities(r.amenities)
    ensures f.image == if r.image.Some? then r.image.value else ""
  {
    RoomForm(r.name, r.description, Num(r.capacity), r.pricePerNight, EditAmenities(r.amenities),
             if r.image.Some? then r.image.value else "")
  }

  datatype RoomPayload = RoomPayload(
    name: string, description: string, capacity: IntParse, pricePerNight: real,
    amenities: seq<string>, image: string)

  /** A payload within the form's limits: a named room type for at least one guest at a price of at least 0. */
  predicate WithinFormLimits(p: RoomPayload)
  {
    p.name != "" && p.capacity.Num? && p.capacity.n >= 1 && p.pricePerNight >= 0.0
  }

  function SubmitData(f: RoomForm): (p: RoomPayload)
    ensures p.amenities == SubmitAmenities(f.amenities)
    ensures p.name == f.name && p.description == f.description && p.capacity == f.capacity
    ensures p.pricePerNight == f.pricePerNight && p.image == f.image
  {
    RoomPayload(f.name, f.description, f.capacity, f.pricePerNight, SubmitAmenities(f.amenities), f.image)
  }

  datatype RoomCall = Create(payload: RoomPayload) | Update(id: int, payload: RoomPayload) | Delete(id: int)

  /** The write a save sends: an update of the room type being edited, or a create. */
  function SaveCall(editing: Option<RoomType>, f: RoomForm): (c: RoomCall)
    ensures c.Update? <==> editing.Some?
    ensures c.Update? ==> c.id == editing.value.id
    ensures !c.Delete? && c.payload == SubmitData(f)
  {
    if editing.Some? then Update(editing.value.id, SubmitData(f)) else Create(SubmitData(f))
  }

  class RoomTypeScreen {
    var roomTypes: seq<RoomType>
    var filteredRoomTypes: seq<RoomType>
    var loading: bool
    var searchTerm: string
    var modalOpen: bool
    var editing: Option<RoomType>
    var form: RoomForm
    var calls: seq<RoomCall>

    ghost predicate Valid()
      reads this
    {
      filteredRoomTypes == ApplyFilters(roomTypes, searchTerm)
    }

    /** Every room type created or updated so far was sent within the form's limits. */
    ghost predicate WritesWithinLimits()
      reads this`calls
    {
      forall c :: c in calls && !c.Delete? ==> WithinFormLimits(c.payload)
    }

    constructor ()
      ensures Valid() && roomTypes == [] && loading && searchTerm == ""
      ensures !modalOpen && editing.None? && form == BlankForm && calls == []
      ensures WritesWithinLimits()
    {
      roomTypes, filteredRoomTypes := [], [];
      loading := true;
      searchTerm := "";
      modalOpen := false;
      editing := None;
      form := BlankForm;
      calls := [];
    }

    method Refilter()
      modifies this`filteredRoomTypes
      ensures Valid()
    {
      filteredRoomTypes := ApplyFilters(roomTypes, searchTerm);
    }

    /** `fetchRoomTypes` and the filter effect after it: a failure keeps the old list. */
    method FetchRoomTypes(result: Response<seq<RoomType>>)
      modifies this`roomTypes, this`filteredRoomTypes, this`loading
      ensures Valid() && !loading
      ensures roomTypes == if result.Ok? then result.payload else old(roomTypes)
    {
      loading := true;
      if result.Ok? {
        roomTypes := result.payload;
        filteredRoomTypes := result.payload;
      }
      loading := false;
      Refilter();
    }

    /** The search box, and the "Clear search" button with an empty term. */
    method SetSearchTerm(term: string)
      modifies this`searchTerm, this`filteredRoomTypes
      ensures Valid() && searchTerm == term
    {
      searchTerm := term;
      Refilter();
    }

    method OpenCreate()
      modifies this`editing, this`form, this`modalOpen
      ensures editing.None? && form == BlankForm && modalOpen
    {
      editing := None;
      form := BlankForm;
      modalOpen := true;
    }

    method OpenEdit(r: RoomType)
      modifies this`editing, this`form, this`modalOpen
      ensures editing == Some(r) && form == EditForm(r) && modalOpen
    {
      editing := Some(r);
      form := EditForm(r);
      modalOpen := true;
    }

    /** After a successful save: the modal closes and the form is reset to a blank one in create mode. */
    method CloseModal()
      modifies this`modalOpen, this`editing, this`form
      ensures !modalOpen && editing.None? && form == BlankForm
    {
      modalOpen := false;
      editing := None;
      form := BlankForm;
    }

    method UpdateForm(f: RoomForm)
      modifies this`form
      ensures form == f
    {
      form := f;
    }

    /** `handleSubmit`: the write, then a re-fetch and a reset of the modal when the write succeeded. */
    method Submit(write: Response<()>, refetch: Response<seq<RoomType>>)
      requires Valid() && FormAccepted(form)
      modifies this`calls, this`roomTypes, this`filteredRoomTypes, this`loading, this`modalOpen, this`editing, this`form
      ensures Valid() && searchTerm == old(searchTerm)
      ensures calls == old(calls) + [SaveCall(old(editing), old(form))]
      ensures old(WritesWithinLimits()) ==> WritesWithinLimits()
      ensures write.Ok? ==> !modalOpen && editing.None? && form == BlankForm && !loading
      ensures write.Ok? ==> roomTypes == if refetch.Ok? then refetch.payload else old(roomTypes)
      ensures write.Failed? ==>
                modalOpen == old(modalOpen) && editing == old(editing) && form == old(form) &&
                roomTypes == old(roomTypes) && loading == old(loading)
    {
      Record(SaveCall(editing, form));
      if write.Ok? {
        FetchRoomTypes(refetch);
        CloseModal();
      }
    }

    /** A write sent to the backend. */
    method Record(c: RoomCall)
      requires !c.Delete? ==> WithinFormLimits(c.payload)
      modifies this`calls
      ensures calls == old(calls) + [c]
      ensures old(WritesWithinLimits()) ==> WritesWithinLimits()
    {
      calls := calls + [c];
    }

    /** The delete button: only after the confirmation dialog is accepted. */
    method DeleteRoomType(id: int, confirmed: bool, write: Response<()>, refetch: Response<seq<RoomType>>)
      requires Valid()
      modifies this`calls, this`roomTypes, this`filteredRoomTypes, this`loading
      ensures Valid() && searchTerm == old(searchTerm)
      ensures modalOpen == old(modalOpen) && editing == old(editing) && form == old(form)
      ensures calls == if confirmed then old(calls) + [Delete(id)] else old(calls)
      ensures old(WritesWithinLimits()) ==> WritesWithinLimits()
      ensures roomTypes == if confirmed && write.Ok? && refetch.Ok? then refetch.payload else old(roomTypes)
      ensures loading == if confirmed && write.Ok? then false else old(loading)
    {
      if confirmed {
        Record(Delete(id));
        if write.Ok? {
          FetchRoomTypes(refetch);
        }
      }
    }
  }
}
