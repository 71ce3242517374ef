/** The add-garment form: toggling style tags, validating on submit, and
    resetting the form after a successful add. */
module AddItemModal {
  import opened Wrappers
  import opened Seqs
  import opened Records
  import opened HookCommon
  import opened WardrobeHooks

  /** The five pieces of form state */
  datatype FormState = FormState(
    category: string,
    garment: string,
    colorPrimary: string,
    styleTags: seq<string>,
    imageUri: Option<string>)

  /** The state of a fresh (or reset) form */
  const EmptyForm := FormState("", "", "", [], None)

  /** `toggleStyleTag(tag)`: a present tag is removed (every occurrence), an
      absent one is appended at the end. */
  function ToggleStyleTag(tags: seq<string>, tag: string): (r: seq<string>)
    ensures tag in r <==> tag !in tags
    ensures forall t :: t != tag ==> (t in r <==> t in tags)
    ensures tag in tags ==> IsSubsequence(r, tags) && |r| < |tags|
    ensures tag !in tags ==> |r| == |tags| + 1 && r[..|tags|] == tags && r[|tags|] == tag
    ensures forall t :: t != tag ==> multiset(r)[t] == multiset(tags)[t]
  {
    if tag in tags then
      var r := Filter(tags, (t: string) => t != tag);
      FilterDropsOne(tags, tag);
      r
    else tags + [tag]
  }

  /** Filtering out a present tag makes the list strictly shorter. */
  lemma {:induction false} FilterDropsOne(tags: seq<string>, tag: string)
    requires tag in tags
    ensures |Filter(tags, (t: string) => t != tag)| < |tags|
    decreases |tags|
  {
    var p := (t: string) => t != tag;
    if tags[0] == tag {
      assert |Filter(tags[1..], p)| <= |tags[1..]|;
    } else {
      assert tag in tags[1..];
      FilterDropsOne(tags[1..], tag);
    }
  }

  /** Toggling keeps a duplicate-free tag list duplicate-free. */
  lemma ToggleKeepsNoDup(tags: seq<string>, tag: string)
    requires NoDup(tags)
    ensures NoDup(ToggleStyleTag(tags, tag))
  {
    if tag in tags {
      FilterNoDup(tags, (t: string) => t != tag);
    } else {
      var r := tags + [tag];
      forall i, j | 0 <= i < j < |r| ensures r[i] != r[j] {
        if j == |tags| {
          assert r[i] == tags[i];
        } else {
          assert r[i] == tags[i] && r[j] == tags[j];
        }
      }
    }
  }

  /** Toggling an absent tag twice gives back the very same list. */
  lemma ToggleTwiceAbsent(tags: seq<string>, tag: string)
    requires tag !in tags
    ensures ToggleStyleTag(ToggleStyleTag(tags, tag), tag) == tags
  {
    var p := (t: string) => t != tag;
    FilterAppend(tags, [tag], p);
    assert Filter([tag], p) == [];
    assert Filter(tags, p) == tags;
  }

  /** Toggling a present tag twice on a duplicate-free list gives back the
      same tags, duplicate-free, but the tag has moved to the end. */
  lemma ToggleTwicePresent(tags: seq<string>, tag: string)
    requires NoDup(tags) && tag in tags
    ensures var r := ToggleStyleTag(ToggleStyleTag(tags, tag), tag);
      && NoDup(r)
      && (forall t :: t in r <==> t in tags)
      && r[|r| - 1] == tag
  {
    var once := ToggleStyleTag(tags, tag);
    ToggleKeepsNoDup(tags, tag);
    ToggleKeepsNoDup(once, tag);
  }

  /** So "toggling twice restores the list" fails for a present tag that is not last. */
  lemma ToggleTwiceReorders()
    ensures ToggleStyleTag(ToggleStyleTag(["Casual", "Chic"], "Casual"), "Casual") == ["Chic", "Casual"]
  {
    var p := (t: string) => t != "Casual";
    assert "Casual" in ["Casual", "Chic"];
    assert ["Casual", "Chic"][1..] == ["Chic"];
    assert Filter(["Chic"], p) == ["Chic"];
    assert ToggleStyleTag(["Casual", "Chic"], "Casual") == ["Chic"];
  }

  /** A tag that occurs once, as the last tag, is also restored by toggling twice. */
  lemma ToggleTwiceLastRestores(tags: seq<string>, tag: string)
    requires |tags| > 0 && tags[|tags| - 1] == tag && tag !in tags[..|tags| - 1]
    ensures ToggleStyleTag(ToggleStyleTag(tags, tag), tag) == tags
  {
    var p := (t: string) => t != tag;
    var init := tags[..|tags| - 1];
    assert tags == init + [tag];
    FilterAppend(init, [tag], p);
    assert Filter([tag], p) == [];
    assert Filter(init, p) == init;
    assert ToggleStyleTag(tags, tag) == init;
  }

  /** A present tag that toggling twice restores was the last tag, and only there. */
  lemma ToggleTwiceRestoredWasLast(tags: seq<string>, tag: string)
    requires tag in tags && ToggleStyleTag(ToggleStyleTag(tags, tag), tag) == tags
    ensures tags[|tags| - 1] == tag && tag !in tags[..|tags| - 1]
  {
    var once := ToggleStyleTag(tags, tag);
    assert tag !in once;
    assert tags == once + [tag];
    assert tags[..|tags| - 1] == once;
  }

  /** Toggling twice gives the list back exactly when the tag was absent, or
      occurred once, as the last tag. */
  lemma ToggleTwiceRestoresIff(tags: seq<string>, tag: string)
    ensures ToggleStyleTag(ToggleStyleTag(tags, tag), tag) == tags <==>
              tag !in tags || (tags[|tags| - 1] == tag && tag !in tags[..|tags| - 1])
  {
    if tag !in tags {
      ToggleTwiceAbsent(tags, tag);
    } else if tags[|tags| - 1] == tag && tag !in tags[..|tags| - 1] {
      ToggleTwiceLastRestores(tags, tag);
    } else if ToggleStyleTag(ToggleStyleTag(tags, tag), tag) == tags {
      ToggleTwiceRestoredWasLast(tags, tag);
    }
  }

  /** Category, type and primary colour must all be filled in. */
  predicate Valid(form: FormState) {
    form.category != "" && form.garment != "" && form.colorPrimary != ""
  }

  /** The input `handleSubmit` hands to the add hook */
  function InputOf(form: FormState): (input: AddInput)
    ensures input.category == form.category && input.garment == form.garment && input.colorPrimary == form.colorPrimary
    ensures input.styleTags == Some(form.styleTags)
    ensures input.colorSecondary.None? && input.seasonTags.None?
    ensures input.imageUri.Some? <==> Truthy(form.imageUri)
    ensures input.imageUri.Some? ==> input.imageUri == form.imageUri
  {
    AddInput(form.category, form.garment, form.colorPrimary, None, Some(form.styleTags), None,
             if Truthy(form.imageUri) then form.imageUri else None)
  }

  /** What a press on "Ajouter" leads to: the form afterwards, the input sent
      to the hook (if any), the alert shown (if any), and whether the sheet closes. */
  datatype SubmitOutcome = SubmitOutcome(form: FormState, sent: Option<AddInput>, alert: Option<string>, closed: bool)

  /** `handleSubmit`, given the hook's answer in case it is called */
  function HandleSubmit(form: FormState, added: Result<WardrobeRow, HookError>): (o: SubmitOutcome)
    ensures o.sent.Some? <==> Valid(form)
    ensures !Valid(form) ==>
      o.form == form && !o.closed && o.alert == Some("Remplis au moins la catégorie, le type et la couleur")
    ensures o.sent.Some? ==> o.sent.value == InputOf(form)
    ensures Valid(form) && added.Ok? ==> o.form == EmptyForm && o.closed && o.alert.None?
    ensures Valid(form) && added.Err? ==>
      o.form == form && !o.closed && o.alert == Some("Impossible d'ajouter le vêtement")
    ensures o.closed <==> o.alert.None?
  {
    if !Valid(form) then SubmitOutcome(form, None, Some("Remplis au moins la catégorie, le type et la couleur"), false)
    else if added.Ok? then SubmitOutcome(EmptyForm, Some(InputOf(form)), None, true)
    else SubmitOutcome(form, Some(InputOf(form)), Some("Impossible d'ajouter le vêtement"), false)
  }

  /** Form and hook together: the row a valid form inserts carries the form's
      fields, its tags, no secondary colour, no season tags, and an image
      exactly when the form had a photo. */
  lemma InsertedRowFollowsForm(user: User, form: FormState, now: nat, storage: Storage, insert: Option<string>)
    requires Valid(form)
    requires UseAddWardrobeItem(Some(user), InputOf(form), now, storage, insert).Ok?
    ensures var row := UseAddWardrobeItem(Some(user), InputOf(form), now, storage, insert).value;
      && row.userId == user.id
      && row.category == form.category && row.garment == form.garment && row.colorPrimary == form.colorPrimary
      && row.styleTags == form.styleTags
      && row.seasonTags == []
      && row.colorSecondary.None?
      && (row.imageUrl.Some? <==> Truthy(form.imageUri))
  {
    var input := InputOf(form);
    assert Truthy(input.imageUri) <==> Truthy(form.imageUri);
    assert !Truthy(input.colorSecondary);
  }
}
