/** The category routes of the API (apps/api/src/routes/categories/categories.route.ts):
    create, rename and delete a category. Names are unique ignoring case, and each
    category gets a unique slug, chosen by trying the slugified name and then the
    name with the suffixes -1, -2, ... until one is free. */
module Categories {
  import opened Wrappers
  import opened Text
  import opened ApiUtils

  /** Categories are numbered in creation order (the table's ids are generated
      by the database; only their freshness matters here). */
  type CategoryId = nat

  datatype Category = Category(id: CategoryId, name: string, slug: string)

  /** A row of the product/category link table. */
  datatype Link = Link(categoryId: CategoryId, productId: string)

  // Slug candidates

  /** The slug tried at step k: the base itself, then `base-k`. */
  function Candidate(base: string, k: nat): (s: string)
    ensures k == 0 ==> s == base
    ensures k > 0 ==> s == base + "-" + NatToString(k)
  {
    if k == 0 then base else base + "-" + NatToString(k)
  }

  /** Different steps try different slugs. */
  lemma CandidateInjective(base: string, j: nat, k: nat)
    requires Candidate(base, j) == Candidate(base, k)
    ensures j == k
  {
    assert j > 0 <==> |Candidate(base, j)| > |base|;
    assert k > 0 <==> |Candidate(base, k)| > |base|;
    if j > 0 && k > 0 {
      assert Candidate(base, j)[|base| + 1..] == NatToString(j);
      assert Candidate(base, k)[|base| + 1..] == NatToString(k);
      NatToStringInjective(j, k);
    }
  }

  /** The slugs tried in the first n steps. */
  function Tried(base: string, n: nat): set<string>
  {
    set k | 0 <= k < n :: Candidate(base, k)
  }

  /** One more step adds the slug tried at that step. */
  lemma TriedExtend(base: string, n: nat)
    ensures Tried(base, n + 1) == Tried(base, n) + {Candidate(base, n)}
  {
  }

  /** The slug tried at step n was not tried before. */
  lemma CandidateIsNew(base: string, n: nat)
    ensures Candidate(base, n) !in Tried(base, n)
  {
    forall j | 0 <= j < n
      ensures Candidate(base, j) != Candidate(base, n)
    {
      if Candidate(base, j) == Candidate(base, n) {
        CandidateInjective(base, j, n);
      }
    }
  }

  /** n steps try n different slugs. */
  lemma {:induction false} TriedSize(base: string, n: nat)
    ensures |Tried(base, n)| == n
  {
    if n > 0 {
      TriedSize(base, n - 1);
      TriedExtend(base, n - 1);
      CandidateIsNew(base, n - 1);
    }
  }

  /** When the first k tried slugs are all taken, there are at least k taken slugs. */
  lemma TriedBound(base: string, taken: set<string>, k: nat)
    requires Tried(base, k) <= taken
    ensures k <= |taken|
  {
    TriedSize(base, k);
    assert taken == Tried(base, k) + (taken - Tried(base, k));
  }

  /** One more taken candidate extends the run of taken ones. */
  lemma TriedStep(base: string, taken: set<string>, k: nat)
    requires Tried(base, k) <= taken && Candidate(base, k) in taken
    ensures Tried(base, k + 1) <= taken
    ensures k + 1 <= |taken|
  {
    assert Tried(base, k + 1) == Tried(base, k) + {Candidate(base, k)};
    TriedBound(base, taken, k + 1);
  }

  /** The step at which the slug loop stops, searching from step k: the first
      step whose slug is not taken. */
  function FirstFree(base: string, taken: set<string>, k: nat): (r: nat)
    requires Tried(base, k) <= taken
    ensures k <= r <= |taken|
    ensures Candidate(base, r) !in taken
    ensures forall j :: k <= j < r ==> Candidate(base, j) in taken
    decreases |taken| - k
  {
    TriedBound(base, taken, k);
    if Candidate(base, k) !in taken then k
    else
      TriedStep(base, taken, k);
      FirstFree(base, taken, k + 1)
  }

  /** The loop's slug is free, and every earlier candidate is taken: the
      chosen slug is the least free one in the order the loop tries them. */
  lemma FirstFreeIsLeast(base: string, taken: set<string>)
    ensures Candidate(base, FirstFree(base, taken, 0)) !in taken
    ensures forall j :: 0 <= j < FirstFree(base, taken, 0) ==> Candidate(base, j) in taken
    ensures base !in taken ==> FirstFree(base, taken, 0) == 0
  {
  }

  /** Whether a row takes part in a check: all rows, or all but one. */
  predicate Counts(c: Category, exclude: Option<CategoryId>)
  {
    exclude.None? || c.id != exclude.value
  }

  /** The slugs the slug loop must avoid. */
  function TakenSlugs(rows: seq<Category>, exclude: Option<CategoryId>): set<string>
  {
    set i | 0 <= i < |rows| && Counts(rows[i], exclude) :: rows[i].slug
  }

  /** The slug loop: try the base, then `base-1`, `base-2`, ... and stop at
      the first slug no counted row has. */
  method ChooseSlug(base: string, rows: seq<Category>, exclude: Option<CategoryId>) returns (slug: string, counter: nat)
    ensures counter == FirstFree(base, TakenSlugs(rows, exclude), 0)
    ensures slug == Candidate(base, counter)
    ensures forall i :: 0 <= i < |rows| && Counts(rows[i], exclude) ==> rows[i].slug != slug
  {
    ghost var taken := TakenSlugs(rows, exclude);
    counter := 0;
    while true
      invariant Tried(base, counter) <= taken
      decreases |taken| - counter
    {
      var finalSlug := if counter == 0 then base else base + "-" + NatToString(counter);
      var existing := exists i :: 0 <= i < |rows| && rows[i].slug == finalSlug && Counts(rows[i], exclude);
      if !existing {
        slug := finalSlug;
        assert slug == Candidate(base, counter) && slug !in taken;
        assert forall j :: 0 <= j < counter ==> Candidate(base, j) in Tried(base, counter);
        FirstFreeFrom(base, taken, 0, counter);
        return;
      }
      assert finalSlug == Candidate(base, counter) && finalSlug in taken;
      TriedStep(base, taken, counter);
      counter := counter + 1;
    }
  }

  /** A free candidate after a run of taken ones is where the search stops. */
  lemma {:induction false} FirstFreeFrom(base: string, taken: set<string>, k: nat, n: nat)
    requires Tried(base, k) <= taken && k <= n
    requires forall j :: k <= j < n ==> Candidate(base, j) in taken
    requires Candidate(base, n) !in taken
    ensures FirstFree(base, taken, k) == n
    decreases n - k
  {
    if k < n {
      TriedStep(base, taken, k);
      FirstFreeFrom(base, taken, k + 1, n);
    }
  }

  // Name checks

  /** `LOWER(name) = LOWER(trimmed)` over the counted rows. */
  predicate NameTaken(rows: seq<Category>, name: string, exclude: Option<CategoryId>)
  {
    exists i :: 0 <= i < |rows| && Counts(rows[i], exclude) && Lower(rows[i].name) == Lower(name)
  }

  function IndexOfId(rows: seq<Category>, id: CategoryId): (k: Option<nat>)
    ensures k.Some? ==> k.value < |rows| && rows[k.value].id == id
    ensures k.None? ==> forall i :: 0 <= i < |rows| ==> rows[i].id != id
  {
    if rows == [] then None
    else if rows[0].id == id then Some(0)
    else match IndexOfId(rows[1..], id)
      case None => None
      case Some(k) => Some(k + 1)
  }

  /** Ids are below `nextId` and distinct; slugs are distinct; names are
      distinct ignoring case. */
  ghost predicate ValidRows(rows: seq<Category>, nextId: CategoryId)
  {
    && (forall i :: 0 <= i < |rows| ==> rows[i].id < nextId)
    && (forall i, j :: 0 <= i < j < |rows| ==> rows[i].id != rows[j].id)
    && (forall i, j :: 0 <= i < j < |rows| ==> rows[i].slug != rows[j].slug)
    && (forall i, j :: 0 <= i < j < |rows| ==> Lower(rows[i].name) != Lower(rows[j].name))
  }

  /** Whether the category has linked products. */
  predicate Linked(links: seq<Link>, id: CategoryId)
  {
    exists i :: 0 <= i < |links| && links[i].categoryId == id
  }

  /** Appending a row with a fresh id, a new name and a new slug keeps the rows valid. */
  lemma AppendValid(rows: seq<Category>, nextId: CategoryId, c: Category)
    requires ValidRows(rows, nextId) && c.id == nextId
    requires !NameTaken(rows, c.name, None)
    requires forall i :: 0 <= i < |rows| && Counts(rows[i], None) ==> rows[i].slug != c.slug
    ensures ValidRows(rows + [c], nextId + 1)
  {
    var r := rows + [c];
    forall i, j | 0 <= i < j < |r|
      ensures r[i].id != r[j].id && r[i].slug != r[j].slug && Lower(r[i].name) != Lower(r[j].name)
    {
      if j == |rows| {
        assert Counts(rows[i], None);
        assert rows[i].slug != c.slug;
      }
    }
  }

  /** Replacing a row by one with the same id and a name and slug no other
      row has keeps the rows valid. */
  lemma ReplaceValid(rows: seq<Category>, nextId: CategoryId, k: nat, c: Category)
    requires ValidRows(rows, nextId) && k < |rows| && c.id == rows[k].id
    requires !NameTaken(rows, c.name, Some(c.id))
    requires forall i :: 0 <= i < |rows| && Counts(rows[i], Some(c.id)) ==> rows[i].slug != c.slug
    ensures ValidRows(rows[k := c], nextId)
  {
    var r := rows[k := c];
    forall i, j | 0 <= i < j < |r|
      ensures r[i].id != r[j].id && r[i].slug != r[j].slug && Lower(r[i].name) != Lower(r[j].name)
    {
      if i == k {
        assert Counts(rows[j], Some(c.id));
        assert rows[j].slug != c.slug;
      } else if j == k {
        assert Counts(rows[i], Some(c.id));
        assert rows[i].slug != c.slug;
      }
    }
  }

  /** Removing a row keeps the rows valid. */
  lemma RemoveValid(rows: seq<Category>, nextId: CategoryId, k: nat)
    requires ValidRows(rows, nextId) && k < |rows|
    ensures ValidRows(rows[..k] + rows[k + 1..], nextId)
  {
    var r := rows[..k] + rows[k + 1..];
    assert forall i :: 0 <= i < |r| ==> r[i] == if i < k then rows[i] else rows[i + 1];
  }

  /** The category table and the product links. */
  class CategoryTable {
    var rows: seq<Category>
    var links: seq<Link>
    var nextId: CategoryId

    /** Ids are fresh below nextId and distinct; slugs are distinct; names
        are distinct ignoring case. */
    ghost predicate Valid()
      reads this
    {
      ValidRows(rows, nextId)
    }

    constructor (links: seq<Link>)
      ensures Valid() && rows == [] && this.links == links
    {
      rows := [];
      this.links := links;
      nextId := 0;
    }

    /** POST /: create a category named by the trimmed name, with a fresh slug
        made by `slugify` (a library, passed in). */
    method Create(name: string, slugify: string -> string) returns (r: Response<Category>)
      requires Valid()
      modifies this
      ensures Valid()
      ensures links == old(links)
      // the body schema demands a non-empty name
      ensures name == "" ==> r == RejectedByValidator && rows == old(rows) && nextId == old(nextId)
      ensures name != "" && NameTaken(old(rows), Trim(name), None) ==>
        r == Replied(Reply(CONFLICT, ErrorResponse("CONFLICT", "Category name already exists", None)))
        && rows == old(rows) && nextId == old(nextId)
      ensures name != "" && !NameTaken(old(rows), Trim(name), None) ==>
        var base := slugify(Trim(name));
        var created := Category(old(nextId), Trim(name), Candidate(base, FirstFree(base, TakenSlugs(old(rows), None), 0)));
        && rows == old(rows) + [created] && nextId == old(nextId) + 1
        && r == Replied(Reply(CREATED, SuccessResponse(created, "Category created successfully")))
    {
      if name == "" {
        return RejectedByValidator;
      }
      var trimmed := Trim(name);
      if NameTaken(rows, trimmed, None) {
        r := Replied(Reply(CONFLICT, ErrorResponse("CONFLICT", "Category name already exists", None)));
        return;
      }
      var slug, _ := ChooseSlug(slugify(trimmed), rows, None);
      var created := Category(nextId, trimmed, slug);
      Insert(created);
      r := Replied(Reply(CREATED, SuccessResponse(created, "Category created successfully")));
    }

    /** The insert: a row with the next id, a name and a slug no row has. */
    method Insert(c: Category)
      requires Valid() && c.id == nextId
      requires !NameTaken(rows, c.name, None)
      requires forall i :: 0 <= i < |rows| && Counts(rows[i], None) ==> rows[i].slug != c.slug
      modifies this
      ensures Valid()
      ensures rows == old(rows) + [c] && nextId == old(nextId) + 1 && links == old(links)
    {
      AppendValid(rows, nextId, c);
      rows := rows + [c];
      nextId := nextId + 1;
    }

    /** PUT /:id: rename a category. An empty trimmed name, or one equal to the
        current name ignoring case, changes nothing. The conflict and slug
        checks leave out the category's own row. */
    method Update(id: CategoryId, name: string, slugify: string -> string) returns (r: Response<Category>)
      requires Valid()
      modifies this
      ensures Valid()
      ensures links == old(links) && nextId == old(nextId)
      // the body schema demands a non-empty name
      ensures name == "" ==> r == RejectedByValidator && rows == old(rows)
      ensures name != "" && IndexOfId(old(rows), id).None? ==>
        r == Replied(Reply(NOT_FOUND, ErrorResponse("NOT_FOUND", "Category not found", None))) && rows == old(rows)
      ensures name != "" && IndexOfId(old(rows), id).Some? ==>
        var k := IndexOfId(old(rows), id).value;
        var current := old(rows)[k];
        var trimmed := Trim(name);
        if trimmed == [] || Lower(trimmed) == Lower(current.name) then
          r == Replied(Reply(OK, SuccessResponse(current, "Category updated successfully"))) && rows == old(rows)
        else if NameTaken(old(rows), trimmed, Some(id)) then
          r == Replied(Reply(CONFLICT, ErrorResponse("CONFLICT", "Category name already exists", None))) && rows == old(rows)
        else
          var base := slugify(trimmed);
          var updated := Category(id, trimmed, Candidate(base, FirstFree(base, TakenSlugs(old(rows), Some(id)), 0)));
          rows == old(rows)[k := updated]
          && r == Replied(Reply(OK, SuccessResponse(updated, "Category updated successfully")))
    {
      if name == "" {
        return RejectedByValidator;
      }
      var found := IndexOfId(rows, id);
      if found.None? {
        r := Replied(Reply(NOT_FOUND, ErrorResponse("NOT_FOUND", "Category not found", None)));
        return;
      }
      var k := found.value;
      var current := rows[k];
      var trimmed := Trim(name);
      if trimmed == [] || Lower(trimmed) == Lower(current.name) {
        r := Replied(Reply(OK, SuccessResponse(current, "Category updated successfully")));
        return;
      }
      if NameTaken(rows, trimmed, Some(id)) {
        r := Replied(Reply(CONFLICT, ErrorResponse("CONFLICT", "Category name already exists", None)));
        return;
      }
      var slug, _ := ChooseSlug(slugify(trimmed), rows, Some(id));
      var updated := Category(id, trimmed, slug);
      Rename(k, updated);
      r := Replied(Reply(OK, SuccessResponse(updated, "Category updated successfully")));
    }

    /** The update of row k: same id, a name and a slug no other row has. */
    method Rename(k: nat, c: Category)
      requires Valid() && k < |rows| && c.id == rows[k].id
      requires !NameTaken(rows, c.name, Some(c.id))
      requires forall i :: 0 <= i < |rows| && Counts(rows[i], Some(c.id)) ==> rows[i].slug != c.slug
      modifies this
      ensures Valid()
      ensures rows == old(rows)[k := c] && nextId == old(nextId) && links == old(links)
    {
      ReplaceValid(rows, nextId, k, c);
      rows := rows[k := c];
    }

    /** DELETE /:id: a missing category is NOT_FOUND, one with linked products
        is a CONFLICT; neither removes anything. */
    method Delete(id: CategoryId) returns (reply: Reply<Category>)
      requires Valid()
      modifies this
      ensures Valid()
      ensures links == old(links) && nextId == old(nextId)
      ensures IndexOfId(old(rows), id).None? ==>
        reply == Reply(NOT_FOUND, ErrorResponse("NOT_FOUND", "Category not found", None)) && rows == old(rows)
      ensures IndexOfId(old(rows), id).Some? && Linked(links, id) ==>
        reply == Reply(CONFLICT, ErrorResponse("CONFLICT", "Category has associated products", None)) && rows == old(rows)
      ensures IndexOfId(old(rows), id).Some? && !Linked(links, id) ==>
        var k := IndexOfId(old(rows), id).value;
        rows == old(rows)[..k] + old(rows)[k + 1..]
        && reply == Reply(OK, SuccessResponse(old(rows)[k], "Category deleted successfully"))
    {
      var found := IndexOfId(rows, id);
      if found.None? {
        reply := Reply(NOT_FOUND, ErrorResponse("NOT_FOUND", "Category not found", None));
        return;
      }
      var k := found.value;
      if Linked(links, id) {
        reply := Reply(CONFLICT, ErrorResponse("CONFLICT", "Category has associated products", None));
        return;
      }
      var deleted := rows[k];
      RemoveValid(rows, nextId, k);
      rows := rows[..k] + rows[k + 1..];
      reply := Reply(OK, SuccessResponse(deleted, "Category deleted successfully"));
    }
  }
}
