/** `useAddWardrobeItem` and `useDeleteWardrobeItem`: the row inserted for a
    new garment, and the table after a delete by id. */
module WardrobeHooks {
  import opened Wrappers
  import opened Seqs
  import opened Records
  import opened AiTypes
  import opened HookCommon

  /** `AddWardrobeItemInput`: what the form hands to the hook */
  datatype AddInput = AddInput(
    category: string,
    garment: string,
    colorPrimary: string,
    colorSecondary: Option<string>,
    styleTags: Option<seq<string>>,
    seasonTags: Option<seq<string>>,
    imageUri: Option<string>)

  /** The `wardrobe_items` row the hook inserts */
  datatype WardrobeRow = WardrobeRow(
    userId: string,
    category: string,
    garment: string,
    colorPrimary: string,
    colorSecondary: Option<string>,
    styleTags: seq<string>,
    seasonTags: seq<string>,
    imageUrl: Option<string>)

  /** `${user.id}/${Date.now()}.jpg` */
  function ItemPath(userId: string, now: nat): string {
    userId + "/" + Decimal(now) + ".jpg"
  }

  /** `useAddWardrobeItem().mutationFn(input)`; `insert` is the database's
      answer to the insert (None on success). */
  function UseAddWardrobeItem(user: Option<User>, input: AddInput, now: nat, storage: Storage, insert: Option<string>): (r: Result<WardrobeRow, HookError>)
    ensures user.None? ==> r == Err(NotAuthenticated)
    ensures user.Some? && Truthy(input.imageUri) && storage.upload(ItemPath(user.value.id, now)).Err? ==>
              r == Err(UploadFailed(storage.upload(ItemPath(user.value.id, now)).error))
    ensures r.Ok? ==>
      && user.Some?
      && insert.None?
      && r.value.userId == user.value.id
      && r.value.category == input.category && r.value.garment == input.garment && r.value.colorPrimary == input.colorPrimary
      && (r.value.imageUrl.None? <==> !Truthy(input.imageUri))
      && (r.value.imageUrl.Some? ==> r.value.imageUrl.value == storage.publicUrl(storage.upload(ItemPath(user.value.id, now)).value))
      && (r.value.colorSecondary.Some? <==> Truthy(input.colorSecondary))
      && (r.value.colorSecondary.Some? ==> r.value.colorSecondary == input.colorSecondary)
      && r.value.styleTags == input.styleTags.GetOr([])
      && r.value.seasonTags == input.seasonTags.GetOr([])
    ensures user.Some? && (!Truthy(input.imageUri) || storage.upload(ItemPath(user.value.id, now)).Ok?) ==>
              (r.Ok? <==> insert.None?) && (insert.Some? ==> r == Err(SaveFailed(insert.value)))
  {
    if user.None? then Err(NotAuthenticated)
    else
      var uploaded :=
        if Truthy(input.imageUri) then
          var up := storage.upload(ItemPath(user.value.id, now));
          if up.Err? then Err(up.error) else Ok(Some(storage.publicUrl(up.value)))
        else Ok(None);
      if uploaded.Err? then Err(UploadFailed(uploaded.error))
      else if insert.Some? then Err(SaveFailed(insert.value))
      else Ok(WardrobeRow(
        user.value.id, input.category, input.garment, input.colorPrimary,
        OrNull(input.colorSecondary),
        input.styleTags.GetOr([]),
        input.seasonTags.GetOr([]),
        uploaded.value))
  }

  /** `delete().eq('id', itemId)` on the `wardrobe_items` table */
  function DeleteWardrobeItem(table: seq<WardrobeItemInput>, itemId: string): (t: seq<WardrobeItemInput>)
    ensures forall x :: x in t ==> x.id != itemId
    ensures forall x :: x in table && x.id != itemId ==> x in t
    ensures forall x :: x in t ==> x in table
    ensures IsSubsequence(t, table)
    ensures (forall x :: x in table ==> x.id != itemId) ==> t == table
  {
    Filter(table, (x: WardrobeItemInput) => x.id != itemId)
  }

  /** `useDeleteWardrobeItem().mutationFn(itemId)`; `failure` is the
      database's error, if any, in which case the table is left as it was. */
  function UseDeleteWardrobeItem(table: seq<WardrobeItemInput>, itemId: string, failure: Option<string>): (r: (Result<(), HookError>, seq<WardrobeItemInput>))
    ensures failure.Some? ==> r == (Err(DeleteFailed(failure.value)), table)
    ensures failure.None? ==> r.0.Ok? && r.1 == DeleteWardrobeItem(table, itemId)
  {
    if failure.Some? then (Err(DeleteFailed(failure.value)), table)
    else (Ok(()), DeleteWardrobeItem(table, itemId))
  }

  /** Deleting twice is deleting once. */
  lemma DeleteIdempotent(table: seq<WardrobeItemInput>, itemId: string)
    ensures DeleteWardrobeItem(DeleteWardrobeItem(table, itemId), itemId) == DeleteWardrobeItem(table, itemId)
  {
  }

  /** Deleting one item leaves every other row in place: deleting from a
      table split in two deletes from each part. */
  lemma {:induction false} DeleteIsLocal(before: seq<WardrobeItemInput>, after: seq<WardrobeItemInput>, itemId: string)
    ensures DeleteWardrobeItem(before + after, itemId) == DeleteWardrobeItem(before, itemId) + DeleteWardrobeItem(after, itemId)
  {
    FilterAppend(before, after, (x: WardrobeItemInput) => x.id != itemId);
  }
}
