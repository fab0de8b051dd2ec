/**
 * The plain-DOM client (public/client.js): the checklist state it builds
 * after a transcription, its persistence under the storage key
 * `groceryList`, the render plan (category headers and checkboxes), the
 * toggle handler, and the reconstruction on page load.
 */
module Checklist {
  import opened Util
  import opened Text
  import opened Grocery

  const TranscribeFailedText := "An error occurred while transcribing the image."
  const ReadFailedText := "An error occurred while reading the image."

  // ---------------------------------------------------------------------
  // Building the state after a transcription
  // ---------------------------------------------------------------------

  /** The entry `transcribeImage` stores for a freshly parsed item. */
  function NewEntry(item: Item): Entry
  {
    Entry(false, item.category, item.name, item.emoji)
  }

  /** No item after position `i` (and before `upTo`) has the name of item `i`. */
  predicate LastWithName(items: seq<Item>, i: int, upTo: int)
    requires 0 <= i < upTo <= |items|
  {
    forall j :: i < j < upTo ==> items[j].name != items[i].name
  }

  /**
   * `state` is what the transcription branch builds from `items`: its keys
   * are exactly the item names, and each name maps to an unchecked entry
   * for the LAST item carrying that name.
   */
  ghost predicate BuiltFrom(items: seq<Item>, state: map<string, Entry>)
  {
    && state.Keys == (set i | 0 <= i < |items| :: items[i].name)
    && forall i :: 0 <= i < |items| && LastWithName(items, i, |items|) ==>
         state[items[i].name] == NewEntry(items[i])
  }

  /** The `items.forEach` loop that fills `savedState` one name at a time. */
  method BuildState(items: seq<Item>) returns (state: map<string, Entry>)
    ensures BuiltFrom(items, state)
  {
    state := map[];
    for n := 0 to |items|
      invariant state.Keys == (set i | 0 <= i < n :: items[i].name)
      invariant forall i :: 0 <= i < n && LastWithName(items, i, n) ==>
        state[items[i].name] == NewEntry(items[i])
    {
      state := state[items[n].name := NewEntry(items[n])];
    }
  }

  /** The last index at or after `from` that carries the name `items[from].name`. */
  lemma {:induction false} LastIndexWithName(items: seq<Item>, from: nat) returns (i: nat)
    requires from < |items|
    ensures from <= i < |items| && items[i].name == items[from].name
    ensures LastWithName(items, i, |items|)
    decreases |items| - from
  {
    if LastWithName(items, from, |items|) {
      i := from;
    } else {
      var j :| from < j < |items| && items[j].name == items[from].name;
      i := LastIndexWithName(items, j);
    }
  }

  /** The items determine the built state completely. */
  lemma BuiltStateUnique(items: seq<Item>, a: map<string, Entry>, b: map<string, Entry>)
    requires BuiltFrom(items, a) && BuiltFrom(items, b)
    ensures a == b
  {
    forall k | k in a
      ensures a[k] == b[k]
    {
      var i :| 0 <= i < |items| && items[i].name == k;
      var last := LastIndexWithName(items, i);
    }
  }

  // ---------------------------------------------------------------------
  // The render plan
  // ---------------------------------------------------------------------

  /**
   * What `updateDisplayWithCheckboxes` appends to the display area: an `h2`
   * category header (with the emoji of the item that opened it), or a
   * checkbox (with the emoji its change handler captured).
   */
  datatype Element =
    | Header(category: string, emoji: string)
    | Checkbox(name: string, emoji: string, checked: bool)

  /**
   * The text an element shows: for a header, its capitalised category, a
   * space and the emoji; for a checkbox, its capitalised item name.
   */
  function Caption(e: Element): (text: string)
    ensures e.Header? ==>
      && |text| == |e.category| + 1 + |e.emoji|
      && (|e.category| > 0 ==> text[0] == UpperChar(e.category[0]))
      && (forall i :: 1 <= i < |e.category| ==> text[i] == LowerChar(e.category[i]))
      && text[|e.category|] == ' '
      && text[|e.category| + 1..] == e.emoji
    ensures e.Checkbox? ==>
      && |text| == |e.name|
      && (|e.name| > 0 ==> text[0] == UpperChar(e.name[0]))
      && (forall i :: 1 <= i < |e.name| ==> text[i] == LowerChar(e.name[i]))
  {
    match e
    case Header(category, emoji) => Capitalize(category) + " " + emoji
    case Checkbox(name, _, _) => Capitalize(name)
  }

  /** The DOM id of a category header. */
  function HeaderId(category: string): string
  {
    "category-" + category
  }

  /** The DOM id of an element: a checkbox's id is its item's name. */
  function Id(e: Element): string
  {
    if e.Header? then HeaderId(e.category) else e.name
  }

  /** The header for `item`'s category, shown with that item's emoji. */
  function HeaderFor(item: Item): Element
  {
    Header(item.category, item.emoji)
  }

  /** The checkbox for `item`: ticked only when the saved entry for its name is checked. */
  function CheckboxFor(item: Item, saved: map<string, Entry>): Element
  {
    Checkbox(item.name, item.emoji, item.name in saved && saved[item.name].checked)
  }

  /** No earlier item has the category of item `i`. */
  predicate FirstOfCategory(items: seq<Item>, i: int)
    requires 0 <= i < |items|
  {
    forall j :: 0 <= j < i ==> items[j].category != items[i].category
  }

  /** What one step of the loop appends for item `i`. */
  function Segment(items: seq<Item>, saved: map<string, Entry>, i: int): seq<Element>
    requires 0 <= i < |items|
  {
    (if FirstOfCategory(items, i) then [HeaderFor(items[i])] else []) + [CheckboxFor(items[i], saved)]
  }

  /**
   * The plan for the first `n` items: per item, a header when the item is
   * the first of its category, then its checkbox.
   */
  function Plan(items: seq<Item>, saved: map<string, Entry>, n: nat): seq<Element>
    requires n <= |items|
  {
    if n == 0 then [] else Plan(items, saved, n - 1) + Segment(items, saved, n - 1)
  }

  /** The checkboxes of a plan, in order. */
  function Checkboxes(elements: seq<Element>): seq<Element>
  {
    if elements == [] then []
    else (if elements[0].Checkbox? then [elements[0]] else []) + Checkboxes(elements[1..])
  }

  /** The categories of a plan's headers, in order. */
  function HeaderCategories(elements: seq<Element>): seq<string>
  {
    if elements == [] then []
    else (if elements[0].Header? then [elements[0].category] else []) + HeaderCategories(elements[1..])
  }

  lemma {:induction false} CheckboxesAppend(a: seq<Element>, b: seq<Element>)
    ensures Checkboxes(a + b) == Checkboxes(a) + Checkboxes(b)
  {
    if a == [] {
      assert a + b == b;
    } else {
      assert (a + b)[0] == a[0] && (a + b)[1..] == a[1..] + b;
      CheckboxesAppend(a[1..], b);
    }
  }

  lemma {:induction false} HeaderCategoriesAppend(a: seq<Element>, b: seq<Element>)
    ensures HeaderCategories(a + b) == HeaderCategories(a) + HeaderCategories(b)
  {
    if a == [] {
      assert a + b == b;
    } else {
      assert (a + b)[1..] == a[1..] + b;
      HeaderCategoriesAppend(a[1..], b);
    }
  }

  /** A loop step contributes its item's checkbox, and its header when it opens a category. */
  lemma SegmentContents(items: seq<Item>, saved: map<string, Entry>, i: nat)
    requires i < |items|
    ensures Checkboxes(Segment(items, saved, i)) == [CheckboxFor(items[i], saved)]
    ensures HeaderCategories(Segment(items, saved, i))
         == if FirstOfCategory(items, i) then [items[i].category] else []
  {
    var h, b := HeaderFor(items[i]), CheckboxFor(items[i], saved);
    assert Checkboxes([b]) == [b] by { assert [b][1..] == []; }
    assert HeaderCategories([b]) == [] by { assert [b][1..] == []; }
    if FirstOfCategory(items, i) {
      assert Segment(items, saved, i) == [h, b];
      assert [h, b][1..] == [b];
      assert Checkboxes([h, b]) == [b];
      assert HeaderCategories([h, b]) == [h.category];
    } else {
      assert Segment(items, saved, i) == [b];
    }
  }

  /** Planning one more item adds its checkbox. */
  lemma PlanStepCheckboxes(items: seq<Item>, saved: map<string, Entry>, n: nat)
    requires 0 < n <= |items|
    ensures Checkboxes(Plan(items, saved, n))
         == Checkboxes(Plan(items, saved, n - 1)) + [CheckboxFor(items[n - 1], saved)]
  {
    var before, seg := Plan(items, saved, n - 1), Segment(items, saved, n - 1);
    assert Plan(items, saved, n) == before + seg;
    CheckboxesAppend(before, seg);
    SegmentContents(items, saved, n - 1);
  }

  /** Planning one more item adds its category when it opens one. */
  lemma PlanStepHeaders(items: seq<Item>, saved: map<string, Entry>, n: nat)
    requires 0 < n <= |items|
    ensures HeaderCategories(Plan(items, saved, n))
         == HeaderCategories(Plan(items, saved, n - 1))
            + if FirstOfCategory(items, n - 1) then [items[n - 1].category] else []
  {
    var before, seg := Plan(items, saved, n - 1), Segment(items, saved, n - 1);
    assert Plan(items, saved, n) == before + seg;
    HeaderCategoriesAppend(before, seg);
    SegmentContents(items, saved, n - 1);
  }

  /** The plan holds exactly one checkbox per item, in item order. */
  lemma {:induction false} PlanCheckboxes(items: seq<Item>, saved: map<string, Entry>, n: nat)
    requires n <= |items|
    ensures |Checkboxes(Plan(items, saved, n))| == n
    ensures forall i {:trigger Checkboxes(Plan(items, saved, n))[i]} :: 0 <= i < n ==>
      Checkboxes(Plan(items, saved, n))[i] == CheckboxFor(items[i], saved)
  {
    if n > 0 {
      PlanCheckboxes(items, saved, n - 1);
      PlanStepCheckboxes(items, saved, n);
      var before, boxes := Checkboxes(Plan(items, saved, n - 1)), Checkboxes(Plan(items, saved, n));
      assert boxes == before + [CheckboxFor(items[n - 1], saved)];
      assert |boxes| == n;
      forall i | 0 <= i < n
        ensures boxes[i] == CheckboxFor(items[i], saved)
      {
        if i < n - 1 {
          assert boxes[i] == before[i];
        }
      }
    } else {
      assert Plan(items, saved, n) == [];
    }
  }

  /**
   * The plan holds one header per distinct category of the items, none
   * twice, so there are exactly as many headers as distinct categories.
   */
  lemma {:induction false} PlanHeaders(items: seq<Item>, saved: map<string, Entry>, n: nat)
    requires n <= |items|
    ensures NoDuplicates(HeaderCategories(Plan(items, saved, n)))
    ensures (set c | c in HeaderCategories(Plan(items, saved, n))) == (set i | 0 <= i < n :: items[i].category)
    ensures |HeaderCategories(Plan(items, saved, n))| == |set i | 0 <= i < n :: items[i].category|
  {
    var cats := HeaderCategories(Plan(items, saved, n));
    if n > 0 {
      PlanHeaders(items, saved, n - 1);
      PlanStepHeaders(items, saved, n);
      HeadersStep(items, HeaderCategories(Plan(items, saved, n - 1)), cats, n);
    } else {
      assert Plan(items, saved, n) == [];
    }
    DistinctCount(cats);
  }

  /** The bookkeeping of one induction step of PlanHeaders. */
  lemma HeadersStep(items: seq<Item>, before: seq<string>, cats: seq<string>, n: nat)
    requires 0 < n <= |items|
    requires NoDuplicates(before)
    requires (set c | c in before) == (set i | 0 <= i < n - 1 :: items[i].category)
    requires cats == before + if FirstOfCategory(items, n - 1) then [items[n - 1].category] else []
    ensures NoDuplicates(cats)
    ensures (set c | c in cats) == (set i | 0 <= i < n :: items[i].category)
  {
    ShownStep(items, n - 1, set i | 0 <= i < n - 1 :: items[i].category);
    var c := items[n - 1].category;
    if FirstOfCategory(items, n - 1) {
      assert c !in before;
      assert (set x | x in cats) == (set x | x in before) + {c};
    } else {
      assert cats == before;
    }
  }

  /**
   * Every element of the plan comes from one of the items: its checkbox, or
   * the header of a category the item is the first of.
   */
  lemma {:induction false} PlanElementsFromItems(items: seq<Item>, saved: map<string, Entry>, n: nat)
    requires n <= |items|
    ensures forall e :: e in Plan(items, saved, n) ==>
      exists i :: 0 <= i < n && (e == CheckboxFor(items[i], saved) || (FirstOfCategory(items, i) && e == HeaderFor(items[i])))
  {
    if n > 0 {
      PlanElementsFromItems(items, saved, n - 1);
      var before, seg := Plan(items, saved, n - 1), Segment(items, saved, n - 1);
      assert Plan(items, saved, n) == before + seg;
      forall e | e in before + seg
        ensures exists i :: 0 <= i < n && (e == CheckboxFor(items[i], saved) || (FirstOfCategory(items, i) && e == HeaderFor(items[i])))
      {
        if e !in before {
          assert e == CheckboxFor(items[n - 1], saved) || (FirstOfCategory(items, n - 1) && e == HeaderFor(items[n - 1]));
        }
      }
    }
  }

  /**
   * The header and checkbox loop of `updateDisplayWithCheckboxes`, with the
   * header lookup reading the categories that already have a header.
   */
  method RenderPlan(items: seq<Item>, saved: map<string, Entry>) returns (plan: seq<Element>)
    ensures plan == Plan(items, saved, |items|)
  {
    plan := [];
    var shown: set<string> := {};
    for n := 0 to |items|
      invariant plan == Plan(items, saved, n)
      invariant shown == set i | 0 <= i < n :: items[i].category
    {
      var item := items[n];
      var header: seq<Element> := [];
      if item.category !in shown {
        header := [HeaderFor(item)];
      }
      plan := plan + (header + [CheckboxFor(item, saved)]);
      ShownStep(items, n, shown);
      shown := shown + {item.category};
    }
  }

  /** One step of the loop's bookkeeping of the categories already headed. */
  lemma ShownStep(items: seq<Item>, n: nat, shown: set<string>)
    requires n < |items|
    requires shown == set i | 0 <= i < n :: items[i].category
    ensures FirstOfCategory(items, n) <==> items[n].category !in shown
    ensures shown + {items[n].category} == set i | 0 <= i < n + 1 :: items[i].category
  {
    if items[n].category in shown {
      var j :| 0 <= j < n && items[j].category == items[n].category;
    }
  }

  // ---------------------------------------------------------------------
  // The header lookup as written
  // ---------------------------------------------------------------------

  /** Some element shown so far has the DOM id `id`. */
  predicate HasId(elements: seq<Element>, id: string)
  {
    elements != [] && (Id(elements[0]) == id || HasId(elements[1..], id))
  }

  /** `HasId` holds exactly when some position carries the id. */
  lemma {:induction false} HasIdAt(elements: seq<Element>, id: string)
    ensures HasId(elements, id) <==> exists k :: 0 <= k < |elements| && Id(elements[k]) == id
  {
    if elements != [] {
      HasIdAt(elements[1..], id);
      if exists k :: 0 <= k < |elements| && Id(elements[k]) == id {
        var k :| 0 <= k < |elements| && Id(elements[k]) == id;
        if k > 0 {
          assert Id(elements[1..][k - 1]) == id;
        }
      }
    }
  }

  /**
   * The plan as the source computes it: `document.getElementById` looks the
   * header id up among ALL ids shown so far, checkbox ids (item names)
   * included.
   */
  function PlanAsWritten(items: seq<Item>, saved: map<string, Entry>, n: nat): seq<Element>
    requires n <= |items|
  {
    if n == 0 then []
    else
      var shown := PlanAsWritten(items, saved, n - 1);
      shown + (if HasId(shown, HeaderId(items[n - 1].category)) then [] else [HeaderFor(items[n - 1])])
            + [CheckboxFor(items[n - 1], saved)]
  }

  /**
   * The lookup as written only decides about headers: its checkboxes are
   * those of the plan, one per item in item order.
   */
  lemma {:induction false} PlanAsWrittenCheckboxes(items: seq<Item>, saved: map<string, Entry>, n: nat)
    requires n <= |items|
    ensures Checkboxes(PlanAsWritten(items, saved, n)) == Checkboxes(Plan(items, saved, n))
    ensures |Checkboxes(PlanAsWritten(items, saved, n))| == n
  {
    if n > 0 {
      PlanAsWrittenCheckboxes(items, saved, n - 1);
      var shown, box := PlanAsWritten(items, saved, n - 1), CheckboxFor(items[n - 1], saved);
      var header := if HasId(shown, HeaderId(items[n - 1].category)) then [] else [HeaderFor(items[n - 1])];
      assert PlanAsWritten(items, saved, n) == shown + (header + [box]);
      CheckboxesAppend(shown, header + [box]);
      assert Checkboxes([box]) == [box] by { assert [box][1..] == []; }
      if header != [] {
        assert (header + [box])[1..] == [box];
      } else {
        assert header + [box] == [box];
      }
      PlanStepCheckboxes(items, saved, n);
    } else {
      assert PlanAsWritten(items, saved, 0) == [] == Plan(items, saved, 0);
    }
    PlanCheckboxes(items, saved, n);
  }

  /**
   * An item named "category-fruit" suppresses the header of the category
   * "fruit": the lookup finds that item's checkbox, so the two categories get
   * one header between them instead of two.
   */
  lemma HeaderSuppressedByItemName()
    ensures var items := [Item("category-fruit", "snacks", "*", None), Item("apple", "fruit", "*", None)];
      && HeaderCategories(PlanAsWritten(items, map[], 2)) == ["snacks"]
      && HeaderCategories(Plan(items, map[], 2)) == ["snacks", "fruit"]
  {
    var items := [Item("category-fruit", "snacks", "*", None), Item("apple", "fruit", "*", None)];
    var h0, b0, h1, b1 := HeaderFor(items[0]), CheckboxFor(items[0], map[]), HeaderFor(items[1]), CheckboxFor(items[1], map[]);
    var first := PlanAsWritten(items, map[], 1);
    assert first == [h0, b0];
    assert Id(first[1]) == HeaderId("fruit");
    var written := PlanAsWritten(items, map[], 2);
    assert written == [h0, b0, b1];
    assert HeaderCategories([b1]) == [] by { assert [b1][1..] == []; }
    assert HeaderCategories([b0, b1]) == [] by { assert [b0, b1][1..] == [b1]; }
    assert HeaderCategories(written) == ["snacks"] by { assert written[1..] == [b0, b1]; }
    assert FirstOfCategory(items, 1);
    var plan := Plan(items, map[], 2);
    assert Plan(items, map[], 1) == [h0, b0];
    assert plan == [h0, b0, h1, b1];
    assert HeaderCategories([h1, b1]) == ["fruit"] by { assert [h1, b1][1..] == [b1]; }
    assert HeaderCategories([b0, h1, b1]) == ["fruit"] by { assert [b0, h1, b1][1..] == [h1, b1]; }
    assert HeaderCategories(plan) == ["snacks", "fruit"] by { assert plan[1..] == [b0, h1, b1]; }
  }

  /** No item is named like the header id of any item's category. */
  predicate NamesClear(items: seq<Item>)
  {
    forall i, j :: 0 <= i < |items| && 0 <= j < |items| ==> items[i].name != HeaderId(items[j].category)
  }

  /**
   * When no item is named like a header id, the lookup as written and the
   * intended one agree on the whole list.
   */
  lemma PlanAsWrittenAgrees(items: seq<Item>, saved: map<string, Entry>)
    requires NamesClear(items)
    ensures PlanAsWritten(items, saved, |items|) == Plan(items, saved, |items|)
  {
    forall m | 0 <= m < |items|
      ensures LookupDecides(items, saved, m)
    {
      HeaderIdShownIffSeen(items, saved, m);
    }
    AgreeUpTo(items, saved, |items|);
  }

  /** The header lookup for item `m` finds an id iff the category was seen before. */
  ghost predicate LookupDecides(items: seq<Item>, saved: map<string, Entry>, m: nat)
    requires m < |items|
  {
    HasId(Plan(items, saved, m), HeaderId(items[m].category)) <==> !FirstOfCategory(items, m)
  }

  lemma {:induction false} AgreeUpTo(items: seq<Item>, saved: map<string, Entry>, n: nat)
    requires n <= |items|
    requires forall m :: 0 <= m < n ==> LookupDecides(items, saved, m)
    ensures PlanAsWritten(items, saved, n) == Plan(items, saved, n)
  {
    if n > 0 {
      AgreeUpTo(items, saved, n - 1);
      assert LookupDecides(items, saved, n - 1);
      AgreeStep(items, saved, n);
    }
  }

  /** One more item keeps the two plans equal when the lookup decides as intended. */
  lemma AgreeStep(items: seq<Item>, saved: map<string, Entry>, n: nat)
    requires 0 < n <= |items|
    requires PlanAsWritten(items, saved, n - 1) == Plan(items, saved, n - 1)
    requires HasId(Plan(items, saved, n - 1), HeaderId(items[n - 1].category)) <==> !FirstOfCategory(items, n - 1)
    ensures PlanAsWritten(items, saved, n) == Plan(items, saved, n)
  {
    var shown, box := Plan(items, saved, n - 1), CheckboxFor(items[n - 1], saved);
    var header := if FirstOfCategory(items, n - 1) then [HeaderFor(items[n - 1])] else [];
    assert PlanAsWritten(items, saved, n) == shown + header + [box];
    assert Plan(items, saved, n) == shown + (header + [box]);
  }

  /** The lookup finds the header id of item `n`'s category iff an earlier item has that category. */
  lemma HeaderIdShownIffSeen(items: seq<Item>, saved: map<string, Entry>, n: nat)
    requires n < |items|
    requires NamesClear(items)
    ensures HasId(Plan(items, saved, n), HeaderId(items[n].category)) <==> !FirstOfCategory(items, n)
  {
    if FirstOfCategory(items, n) {
      NoIdOfNewCategory(items, saved, n);
    } else {
      var j :| 0 <= j < n && items[j].category == items[n].category;
      PlanHasHeaderOfEachCategory(items, saved, n, j);
    }
  }

  /** Before the first item of a category, no element of the plan has that header's id. */
  lemma NoIdOfNewCategory(items: seq<Item>, saved: map<string, Entry>, n: nat)
    requires n < |items| && FirstOfCategory(items, n)
    requires NamesClear(items)
    ensures !HasId(Plan(items, saved, n), HeaderId(items[n].category))
  {
    var shown := Plan(items, saved, n);
    var c := items[n].category;
    PlanElementsFromItems(items, saved, n);
    HasIdAt(shown, HeaderId(c));
    if HasId(shown, HeaderId(c)) {
      var k :| 0 <= k < |shown| && Id(shown[k]) == HeaderId(c);
      assert shown[k] in shown;
      var i :| 0 <= i < n && (shown[k] == CheckboxFor(items[i], saved) || (FirstOfCategory(items, i) && shown[k] == HeaderFor(items[i])));
      if shown[k] != CheckboxFor(items[i], saved) {
        HeaderIdInjective(items[i].category, c);
      }
      assert false;
    }
  }

  lemma HeaderIdInjective(a: string, b: string)
    requires HeaderId(a) == HeaderId(b)
    ensures a == b
  {
    assert a == HeaderId(a)[9..] && b == HeaderId(b)[9..];
  }

  /** Once an item of some category is planned, the header of that category is shown. */
  lemma PlanHasHeaderOfEachCategory(items: seq<Item>, saved: map<string, Entry>, n: nat, j: nat)
    requires j < n <= |items|
    ensures HasId(Plan(items, saved, n), HeaderId(items[j].category))
  {
    PlanHeaders(items, saved, n);
    var c := items[j].category;
    var cats := HeaderCategories(Plan(items, saved, n));
    var all := set i | 0 <= i < n :: items[i].category;
    assert c in all;
    var listed := set x | x in cats;
    assert listed == all;
    assert c in listed;
    HeaderCategoryShown(Plan(items, saved, n), c);
  }

  lemma {:induction false} HeaderCategoryShown(elements: seq<Element>, c: string)
    requires c in HeaderCategories(elements)
    ensures HasId(elements, HeaderId(c))
  {
    if elements[0].Header? && elements[0].category == c {
      assert Id(elements[0]) == HeaderId(c);
    } else {
      assert c in HeaderCategories(elements[1..]);
      HeaderCategoryShown(elements[1..], c);
    }
  }

  // ---------------------------------------------------------------------
  // The page: storage, display area and the checkboxes' shared state
  // ---------------------------------------------------------------------

  /** What the display area `groceryListDisplay` holds. */
  datatype Display = Blank | Message(text: string) | Listing(elements: seq<Element>)

  /** The toggle handler's update of the shared state: only the toggled entry changes. */
  function Toggled(state: map<string, Entry>, name: string, checked: bool, emoji: string): (r: map<string, Entry>)
    requires name in state
    ensures r.Keys == state.Keys
    ensures r[name].checked == checked && r[name].emoji == emoji
    ensures r[name].category == state[name].category && r[name].name == state[name].name
    ensures forall k :: k in state && k != name ==> r[k] == state[k]
  {
    state[name := state[name].(checked := checked, emoji := emoji)]
  }

  class Page {
    /** `localStorage.groceryList`: absent, or the persisted checklist state. */
    var stored: Option<map<string, Entry>>
    var display: Display
    /** The `savedState` object the rendered checkboxes' change handlers share. */
    var saved: map<string, Entry>

    /**
     * While a checklist is displayed, storage holds exactly the state its
     * handlers share, and every checkbox has an entry in that state.
     */
    ghost predicate Valid()
      reads this
    {
      display.Listing? ==>
        && stored == Some(saved)
        && forall e :: e in display.elements && e.Checkbox? ==> e.name in saved
    }

    /** A freshly loaded page over whatever storage already holds. */
    constructor (storage: Option<map<string, Entry>>)
      ensures stored == storage && display == Blank && saved == map[]
      ensures Valid()
    {
      stored := storage;
      display := Blank;
      saved := map[];
    }

    /** `loadState`: the stored state, or the empty one when nothing is stored. */
    function LoadState(): (m: map<string, Entry>)
      reads this
      ensures stored.None? ==> m == map[]
      ensures stored.Some? ==> m == stored.value
    {
      if stored.Some? then stored.value else map[]
    }

    /** `saveState`: a later `loadState` yields exactly `m`. */
    method SaveState(m: map<string, Entry>)
      modifies this`stored
      ensures stored == Some(m) && LoadState() == m
    {
      stored := Some(m);
    }

    /**
     * `updateDisplayWithCheckboxes(items)`: loads the state, shows the plan
     * for the items over it, hands that state to the checkboxes and saves it
     * back unchanged.
     */
    method Render(items: seq<Item>)
      requires forall i :: 0 <= i < |items| ==> items[i].name in LoadState()
      modifies this
      ensures display == Listing(Plan(items, old(LoadState()), |items|))
      ensures saved == old(LoadState()) && stored == Some(saved)
      ensures Valid()
    {
      var state := LoadState();
      var plan := RenderPlan(items, state);
      display := Listing(plan);
      saved := state;
      SaveState(saved);
      PlanElementsFromItems(items, state, |items|);
    }

    /**
     * `transcribeImage` after the reply arrived (the display was cleared by
     * the caller). Reports whether it threw.
     */
    method TranscribeImage(reply: Reply) returns (threw: bool)
      requires display == Blank
      modifies this
      ensures Valid()
      ensures threw <==> reply.NotOk? || (reply.error == "" && reply.parsed.Thrown?)
      ensures reply.NotOk? ==> stored == old(stored) && display == Blank
      ensures reply.Ok? ==> stored.None? || (reply.error == "" && reply.parsed.Items?)
      ensures reply.Ok? && reply.error != "" ==> stored == None && display == Message(reply.error)
      ensures reply.Ok? && reply.error == "" && reply.parsed.Thrown? ==> display == Blank
      ensures reply.Ok? && reply.error == "" && reply.parsed.Items? ==>
        var items := reply.parsed.items;
        && stored.Some? && BuiltFrom(items, stored.value)
        && saved == stored.value
        && display == Listing(Plan(items, saved, |items|))
    {
      if reply.NotOk? {
        return true;
      }
      stored := None;
      if reply.error != "" {
        display := Message(reply.error);
        return false;
      }
      match reply.parsed
      case Thrown(_) =>
        return true;
      case Items(items) =>
        var state := BuildState(items);
        SaveState(state);
        forall i | 0 <= i < |items|
          ensures items[i].name in LoadState()
        {
          assert items[i].name in set j | 0 <= j < |items| :: items[j].name;
        }
        Render(items);
        threw := false;
    }

    /**
     * The change handler of the file input: clears the display, then shows
     * a read error, or transcribes and shows a transcription error when
     * `transcribeImage` threw.
     */
    method SelectImage(read: ImageRead, reply: Reply)
      requires Valid()
      modifies this
      ensures Valid()
      ensures read.NoFile? ==> display == Blank && stored == old(stored)
      ensures read.ReadError? ==> display == Message(ReadFailedText) && stored == old(stored)
      ensures read.DataUrl? && reply.NotOk? ==> display == Message(TranscribeFailedText) && stored == old(stored)
      ensures read.DataUrl? && reply.Ok? && reply.error != "" ==> display == Message(reply.error) && stored == None
      ensures read.DataUrl? && reply.Ok? && reply.error == "" && reply.parsed.Thrown? ==>
        display == Message(TranscribeFailedText) && stored == None
      ensures read.DataUrl? && reply.Ok? && reply.error == "" && reply.parsed.Items? ==>
        var items := reply.parsed.items;
        && stored.Some? && BuiltFrom(items, stored.value) && saved == stored.value
        && display == Listing(Plan(items, saved, |items|))
    {
      display := Blank;
      match read
      case NoFile =>
      case ReadError =>
        display := Message(ReadFailedText);
      case DataUrl =>
        var threw := TranscribeImage(reply);
        if threw {
          display := Message(TranscribeFailedText);
        }
    }

    /**
     * The change handler of checkbox `k`: the click flips it, the shared
     * state's entry for its name takes the new checked value and the
     * checkbox's emoji, and the whole state is saved.
     */
    method Toggle(k: nat)
      requires Valid() && display.Listing? && k < |display.elements| && display.elements[k].Checkbox?
      modifies this
      ensures Valid()
      ensures var box := old(display.elements[k]);
        && display == Listing(old(display.elements)[k := box.(checked := !box.checked)])
        && saved == Toggled(old(saved), box.name, !box.checked, box.emoji)
        && stored == Some(saved)
    {
      var box := display.elements[k];
      assert box in display.elements;
      var now := !box.checked;
      var elements := display.elements[k := box.(checked := now)];
      saved := Toggled(saved, box.name, now, box.emoji);
      SaveState(saved);
      display := Listing(elements);
      forall e | e in elements && e.Checkbox?
        ensures e.name in saved
      {
        var j :| 0 <= j < |elements| && elements[j] == e;
        if j != k {
          assert old(display.elements)[j] in old(display.elements);
        }
      }
    }

    /**
     * The DOMContentLoaded handler: one item per stored key, in the order
     * `keys` enumerates them, rendered only when there is at least one.
     */
    method PageLoad(keys: seq<string>)
      requires Valid() && IsKeyOrder(keys, LoadState())
      modifies this
      ensures Valid()
      ensures old(LoadState()) == map[] ==>
        display == old(display) && stored == old(stored) && saved == old(saved)
      ensures old(LoadState()) != map[] ==>
        var items := Rebuild(old(LoadState()), keys);
        && display == Listing(Plan(items, old(LoadState()), |items|))
        && saved == old(LoadState()) && stored == Some(saved)
    {
      var state := LoadState();
      var items := Rebuild(state, keys);
      if |items| > 0 {
        Render(items);
      }
    }
  }
}
