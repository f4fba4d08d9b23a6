/**
 * Store registration and modification, with the find-or-create bookkeeping
 * of store tags. The two repositories are in-memory tables held by the
 * service object: stores by id, and tags in save order (a tag's id is its
 * position in that table).
 */
module Stores {
  import opened Results

  // ---------------------------------------------------------------------------
  // Entities and transfer objects
  // ---------------------------------------------------------------------------

  /** The store type enum: the two constants this service handles, and any other. */
  datatype StoreType = CampGround | CampSupply | OtherType(name: string)

  /** Which entity subclass a store was saved as. */
  datatype StoreKind = CampGroundStore | CampSupplyStore

  datatype Address = Address(zipCode: string, defaultAddress: string, detailAddress: string)

  /** The six fields `updateInfo` overwrites. */
  datatype StoreInfo = StoreInfo(
    storeName: string,
    address: Address,
    tel: string,
    homepageUrl: string,
    reservationUrl: string,
    introduction: string)

  /** A tag row: unique per (store type, title) when created through this service. */
  datatype StoreTag = StoreTag(storeType: StoreType, title: string)

  datatype StoreTagDTO = StoreTagDTO(id: int, title: string)

  /** `tags` is None for a null set; otherwise the tag DTOs in iteration order. */
  datatype StoreDTO = StoreDTO(id: int, storeType: StoreType, info: StoreInfo, tags: Option<seq<StoreTagDTO>>)

  /** A stored store; `tags` is None for null, otherwise tag ids in insertion order. */
  datatype Store = Store(id: int, kind: StoreKind, storeType: StoreType, info: StoreInfo, tags: Option<seq<nat>>)

  datatype StoreError = NotSupplyStoreType | NotFoundStore

  /** The switch of `register`: the entity subclass for a store type, or none. */
  function KindOf(t: StoreType): (k: Option<StoreKind>)
    ensures k == Some(CampGroundStore) <==> t == CampGround
    ensures k == Some(CampSupplyStore) <==> t == CampSupply
    ensures k.None? <==> t.OtherType?
  {
    match t
    case CampGround => Some(CampGroundStore)
    case CampSupply => Some(CampSupplyStore)
    case OtherType(_) => None
  }

  // ---------------------------------------------------------------------------
  // The tag table and what updateTags does to it
  // ---------------------------------------------------------------------------

  /** No two tag rows share a store type and a title. */
  ghost predicate UniqueTags(table: seq<StoreTag>)
  {
    forall i, j :: 0 <= i < j < |table| ==> table[i] != table[j]
  }

  predicate IdsIn(table: seq<StoreTag>, ids: seq<nat>)
  {
    forall k :: 0 <= k < |ids| ==> ids[k] < |table|
  }

  /** Ids of existing tags of one store type, each at most once. */
  ghost predicate ChosenOk(table: seq<StoreTag>, ids: seq<nat>, t: StoreType)
  {
    && IdsIn(table, ids)
    && (forall k :: 0 <= k < |ids| ==> table[ids[k]].storeType == t)
    && (forall k, l :: 0 <= k < l < |ids| ==> ids[k] != ids[l])
  }

  /** The titles of the tags with these ids, in order. */
  function TitlesOf(table: seq<StoreTag>, ids: seq<nat>): (r: seq<string>)
    requires IdsIn(table, ids)
    ensures |r| == |ids|
  {
    seq(|ids|, k requires 0 <= k < |ids| => table[ids[k]].title)
  }

  /** The titles of the requested tag DTOs, in iteration order. */
  function Titles(dtos: seq<StoreTagDTO>): (r: seq<string>)
    ensures |r| == |dtos| && forall i :: 0 <= i < |dtos| ==> r[i] == dtos[i].title
  {
    seq(|dtos|, i requires 0 <= i < |dtos| => dtos[i].title)
  }

  /** `findByStoreTypeAndTitle`: the id of the tag with that type and title, if saved. */
  function FindTag(table: seq<StoreTag>, t: StoreType, title: string): (r: Option<nat>)
    ensures r.Some? ==> r.value < |table| && table[r.value] == StoreTag(t, title)
    ensures r.None? <==> StoreTag(t, title) !in table
  {
    if table == [] then None
    else if table[|table| - 1] == StoreTag(t, title) then Some(|table| - 1)
    else FindTag(table[..|table| - 1], t, title)
  }

  /** `LinkedHashSet.add`: append unless already present. */
  function LinkedAdd<T(==)>(s: seq<T>, x: T): seq<T>
  {
    if x in s then s else s + [x]
  }

  /** The tag table and the ids gathered so far during updateTags. */
  datatype TagRun = TagRun(table: seq<StoreTag>, chosen: seq<nat>)

  /** One iteration of updateTags: reuse the saved tag, or save a new one; add it to the set. */
  function AddTag(run: TagRun, t: StoreType, title: string): TagRun
  {
    match FindTag(run.table, t, title)
    case Some(id) => TagRun(run.table, LinkedAdd(run.chosen, id))
    case None => TagRun(run.table + [StoreTag(t, title)], LinkedAdd(run.chosen, |run.table|))
  }

  /** The whole loop of updateTags over the requested titles. */
  function AddTags(run: TagRun, t: StoreType, titles: seq<string>): TagRun
  {
    if titles == [] then run
    else AddTag(AddTags(run, t, titles[..|titles| - 1]), t, titles[|titles| - 1])
  }

  /** What updateTags leaves behind: the tag table, and the store's tag ids (None for null). */
  datatype TagUpdate = TagUpdate(table: seq<StoreTag>, tags: Option<seq<nat>>)

  function UpdateTagsSpec(table: seq<StoreTag>, t: StoreType, tagsDTO: Option<seq<StoreTagDTO>>): TagUpdate
  {
    if tagsDTO.None? || tagsDTO.value == [] then TagUpdate(table, None)
    else
      var run := AddTags(TagRun(table, []), t, Titles(tagsDTO.value));
      TagUpdate(run.table, Some(run.chosen))
  }

  /** The requested titles without repeats, in order of first occurrence. */
  function Dedup(s: seq<string>): seq<string>
  {
    if s == [] then [] else LinkedAdd(Dedup(s[..|s| - 1]), s[|s| - 1])
  }

  lemma {:induction false} DedupFacts(s: seq<string>)
    ensures forall x :: x in Dedup(s) <==> x in s
    ensures forall k, l :: 0 <= k < l < |Dedup(s)| ==> Dedup(s)[k] != Dedup(s)[l]
  {
    if s != [] {
      var init := s[..|s| - 1];
      DedupFacts(init);
      assert s == init + [s[|s| - 1]];
    }
  }

  /** One loop iteration keeps the table free of duplicates and the gathered ids sound. */
  lemma {:induction false} AddTagStep(run: TagRun, t: StoreType, title: string)
    requires UniqueTags(run.table) && ChosenOk(run.table, run.chosen, t)
    ensures var r := AddTag(run, t, title);
            && run.table <= r.table && |r.table| <= |run.table| + 1
            && (|r.table| > |run.table| ==> r.table[|run.table|] == StoreTag(t, title) && StoreTag(t, title) !in run.table)
            && UniqueTags(r.table) && ChosenOk(r.table, r.chosen, t)
            && TitlesOf(r.table, r.chosen) == LinkedAdd(TitlesOf(run.table, run.chosen), title)
  {
    var table, chosen := run.table, run.chosen;
    var before := TitlesOf(table, chosen);
    var r := AddTag(run, t, title);
    match FindTag(table, t, title)
    case Some(id) =>
      if id in chosen {
        var k :| 0 <= k < |chosen| && chosen[k] == id;
        assert before[k] == title;
      } else {
        assert forall k :: 0 <= k < |chosen| ==> chosen[k] != id && table[chosen[k]] != table[id];
        assert TitlesOf(table, chosen + [id]) == before + [title];
      }
    case None =>
      var id := |table|;
      var table' := table + [StoreTag(t, title)];
      assert id !in chosen;
      assert forall k :: 0 <= k < |chosen| ==> table[chosen[k]] in table;
      assert TitlesOf(table', chosen) == before;
      assert TitlesOf(table', chosen + [id]) == before + [title];
  }

  /**
   * The loop of updateTags from an empty set: existing tags stay as they were,
   * each new tag has the store's type and a requested title it did not have
   * before, no (type, title) pair is saved twice, and the gathered tags carry
   * exactly the requested titles, each once, in order of first request.
   */
  lemma {:induction false} AddTagsFacts(table: seq<StoreTag>, t: StoreType, titles: seq<string>)
    requires UniqueTags(table)
    ensures var r := AddTags(TagRun(table, []), t, titles);
            && table <= r.table
            && (forall i :: |table| <= i < |r.table| ==> r.table[i].storeType == t && r.table[i].title in titles && r.table[i] !in table)
            && UniqueTags(r.table) && ChosenOk(r.table, r.chosen, t)
            && TitlesOf(r.table, r.chosen) == Dedup(titles)
  {
    if titles != [] {
      var n := |titles|;
      var init := titles[..n - 1];
      AddTagsFacts(table, t, init);
      var prev := AddTags(TagRun(table, []), t, init);
      AddTagStep(prev, t, titles[n - 1]);
      var r := AddTag(prev, t, titles[n - 1]);
      forall i | |table| <= i < |r.table|
        ensures r.table[i].storeType == t && r.table[i].title in titles && r.table[i] !in table
      {
        if i < |prev.table| {
          assert r.table[i] == prev.table[i];
          assert prev.table[i].title in init;
        } else {
          assert r.table[i] == StoreTag(t, titles[n - 1]);
          assert table <= prev.table;
        }
      }
    }
  }

  /**
   * What updateTags promises about the tag table and the store's tags:
   * null for a null or empty request; otherwise tags of the store's type whose
   * titles are exactly the requested ones, with existing tags untouched and
   * no duplicate (type, title) created.
   */
  lemma UpdateTagsSpecFacts(table: seq<StoreTag>, t: StoreType, tagsDTO: Option<seq<StoreTagDTO>>)
    requires UniqueTags(table)
    ensures var u := UpdateTagsSpec(table, t, tagsDTO);
            && (u.tags.None? <==> tagsDTO.None? || tagsDTO.value == [])
            && table <= u.table
            && UniqueTags(u.table)
            && (forall i :: |table| <= i < |u.table| ==>
                  u.table[i].storeType == t && u.table[i] !in table && tagsDTO.Some? && u.table[i].title in Titles(tagsDTO.value))
            && (u.tags.Some? ==> ChosenOk(u.table, u.tags.value, t)
                                 && TitlesOf(u.table, u.tags.value) == Dedup(Titles(tagsDTO.value))
                                 && forall x :: x in TitlesOf(u.table, u.tags.value) <==> x in Titles(tagsDTO.value))
  {
    if tagsDTO.Some? && tagsDTO.value != [] {
      AddTagsFacts(table, t, Titles(tagsDTO.value));
      DedupFacts(Titles(tagsDTO.value));
    }
  }

  // ---------------------------------------------------------------------------
  // The service
  // ---------------------------------------------------------------------------

  /** A saved store is of the subclass its type names, and its tags are tags of its type. */
  ghost predicate StoreOk(s: Store, table: seq<StoreTag>)
  {
    && KindOf(s.storeType) == Some(s.kind)
    && (s.tags.Some? ==> ChosenOk(table, s.tags.value, s.storeType))
  }

  lemma StoreOkExtends(s: Store, table: seq<StoreTag>, table': seq<StoreTag>)
    requires StoreOk(s, table) && table <= table'
    ensures StoreOk(s, table')
  {
    if s.tags.Some? {
      forall k | 0 <= k < |s.tags.value| ensures table'[s.tags.value[k]] == table[s.tags.value[k]] {
        assert s.tags.value[k] < |table|;
      }
    }
  }

  /** `modelMapper.map(store, StoreDTO.class)`: the store with its tags as id and title. */
  function ToDTO(s: Store, table: seq<StoreTag>): (d: StoreDTO)
    requires s.tags.Some? ==> IdsIn(table, s.tags.value)
    ensures d.id == s.id && d.storeType == s.storeType && d.info == s.info
    ensures d.tags.None? <==> s.tags.None?
    ensures d.tags.Some? ==> |d.tags.value| == |s.tags.value|
                             && forall k :: 0 <= k < |d.tags.value| ==>
                                  d.tags.value[k] == StoreTagDTO(s.tags.value[k], TitlesOf(table, s.tags.value)[k])
  {
    StoreDTO(s.id, s.storeType, s.info,
      match s.tags
      case None => None
      case Some(ids) => Some(seq(|ids|, k requires 0 <= k < |ids| => StoreTagDTO(ids[k], table[ids[k]].title))))
  }

  class StoreService {
    /** The store repository, by id. */
    var stores: map<int, Store>
    /** The id the next saved store receives. */
    var nextStoreId: nat
    /** The tag repository; a tag's id is its position. */
    var tags: seq<StoreTag>

    ghost predicate Valid()
      reads this
    {
      && UniqueTags(tags)
      && forall id :: id in stores ==> id < nextStoreId && stores[id].id == id && StoreOk(stores[id], tags)
    }

    constructor ()
      ensures Valid() && stores == map[] && tags == [] && nextStoreId == 1
    {
      stores := map[];
      nextStoreId := 1;
      tags := [];
    }

    /**
     * `updateTags`, returning the store's new tag set: find or save each
     * requested tag under the given store type.
     */
    method UpdateTags(storeType: StoreType, tagsDTO: Option<seq<StoreTagDTO>>) returns (ids: Option<seq<nat>>)
      modifies this`tags
      ensures TagUpdate(tags, ids) == UpdateTagsSpec(old(tags), storeType, tagsDTO)
    {
      ids := None;
      if tagsDTO.Some? && |tagsDTO.value| > 0 {
        var dtos := tagsDTO.value;
        var chosen: seq<nat> := [];
        for i := 0 to |dtos|
          invariant TagRun(tags, chosen) == AddTags(TagRun(old(tags), []), storeType, Titles(dtos[..i]))
        {
          var title := dtos[i].title;
          var id: nat;
          var found := FindTag(tags, storeType, title);
          if found.Some? {
            id := found.value;
          } else {
            id := |tags|;
            tags := tags + [StoreTag(storeType, title)];
          }
          if id !in chosen {
            chosen := chosen + [id];
          }
          assert Titles(dtos[..i + 1])[..i] == Titles(dtos[..i]);
        }
        assert dtos[..|dtos|] == dtos;
        ids := Some(chosen);
      }
    }

    /**
     * `register`: save a camp-ground or camp-supply store with the DTO's info
     * and its tags; any other type throws and saves nothing.
     */
    method Register(dto: StoreDTO) returns (r: Result<StoreDTO, StoreError>)
      requires Valid()
      modifies this
      ensures Valid()
      ensures KindOf(dto.storeType).None? ==>
                r == Err(NotSupplyStoreType)
                && stores == old(stores) && tags == old(tags) && nextStoreId == old(nextStoreId)
      ensures KindOf(dto.storeType).Some? ==>
                var u := UpdateTagsSpec(old(tags), dto.storeType, dto.tags);
                var saved := Store(old(nextStoreId), KindOf(dto.storeType).value, dto.storeType, dto.info, u.tags);
                && old(nextStoreId) !in old(stores)
                && stores == old(stores)[saved.id := saved]
                && tags == u.table
                && nextStoreId == old(nextStoreId) + 1
                && r == Ok(ToDTO(stores[saved.id], tags))
    {
      var kind := KindOf(dto.storeType);
      if kind.None? {
        return Err(NotSupplyStoreType);
      }
      var id := nextStoreId;
      var saved := Store(id, kind.value, dto.storeType, dto.info, None);
      stores := stores[id := saved];
      nextStoreId := nextStoreId + 1;
      ghost var tagsBefore := tags;
      UpdateTagsSpecFacts(tags, saved.storeType, dto.tags);
      var ids := UpdateTags(saved.storeType, dto.tags);
      saved := saved.(tags := ids);
      stores := stores[id := saved];
      forall k | k in stores ensures StoreOk(stores[k], tags) {
        if k != id {
          StoreOkExtends(stores[k], tagsBefore, tags);
        }
      }
      r := Ok(ToDTO(saved, tags));
    }

    /**
     * `modify`: throw when the store is missing; otherwise overwrite its six
     * info fields and its tags, keeping its id, type and subclass.
     */
    method Modify(storeId: int, dto: StoreDTO) returns (r: Result<StoreDTO, StoreError>)
      requires Valid()
      modifies this
      ensures Valid()
      ensures storeId !in old(stores) ==>
                r == Err(NotFoundStore)
                && stores == old(stores) && tags == old(tags) && nextStoreId == old(nextStoreId)
      ensures storeId in old(stores) ==>
                var before := old(stores)[storeId];
                var u := UpdateTagsSpec(old(tags), before.storeType, dto.tags);
                && stores == old(stores)[storeId := before.(info := dto.info, tags := u.tags)]
                && tags == u.table
                && nextStoreId == old(nextStoreId)
                && r == Ok(ToDTO(stores[storeId], tags))
    {
      if storeId !in stores {
        return Err(NotFoundStore);
      }
      var store := stores[storeId];
      store := store.(info := dto.info);
      ghost var tagsBefore := tags;
      UpdateTagsSpecFacts(tags, store.storeType, dto.tags);
      var ids := UpdateTags(store.storeType, dto.tags);
      store := store.(tags := ids);
      stores := stores[storeId := store];
      forall k | k in stores ensures StoreOk(stores[k], tags) {
        if k != storeId {
          StoreOkExtends(stores[k], tagsBefore, tags);
        }
      }
      r := Ok(ToDTO(store, tags));
    }

    /** `getInfo`: the store's DTO, or null when no store has that id. */
    function GetInfo(id: int): (r: Option<StoreDTO>)
      reads this
      requires Valid()
      ensures r.None? <==> id !in stores
      ensures r.Some? ==> r.value.id == id && r.value.storeType == stores[id].storeType && r.value.info == stores[id].info
      ensures r.Some? ==> r.value == ToDTO(stores[id], tags)
    {
      if id in stores then Some(ToDTO(stores[id], tags)) else None
    }
  }
}
