/** Paged queries. Fixed-width offsets saturate, pages are clamped to `MAX_BATCH_SIZE`, and two kinds
    of page exist: those that slice the index first and filter afterwards, and those that page
    through the filtered list. */
module Paging {
  import opened Host
  import opened Seqs
  import opened AlertModel
  import opened Refinement

  /** Elements `offset` to `offset + width` of `s`, as far as they exist. */
  function Window<T>(s: seq<T>, offset: nat, width: nat): seq<T> {
    s[Min(offset, |s|)..Min(offset + width, |s|)]
  }

  /** The window a paged query computes in 32-bit arithmetic. */
  function Page<T>(s: seq<T>, offset: U32, limit: U32): seq<T> {
    s[Min(offset, |s|)..Min(SaturatingAdd(offset, Min(limit, MAX_BATCH_SIZE)), |s|)]
  }

  /** Saturation never shows: no list is longer than a u32 can say. */
  lemma PageIsWindow<T>(s: seq<T>, offset: U32, limit: U32)
    requires |s| <= U32_MAX
    ensures Page(s, offset, limit) == Window(s, offset, Min(limit, MAX_BATCH_SIZE))
  {}

  /** Appending to a list whose window is not full yet. */
  lemma WindowAppend<T>(s: seq<T>, x: T, offset: nat, width: nat)
    requires |Window(s, offset, width)| < width
    ensures Window(s + [x], offset, width) == if |s| < offset then [] else Window(s, offset, width) + [x]
    ensures |s| < offset ==> Window(s, offset, width) == []
  {}

  /** A full window does not change any more. */
  lemma WindowFull<T>(s: seq<T>, rest: seq<T>, offset: nat, width: nat)
    requires |Window(s, offset, width)| >= width
    ensures Window(s + rest, offset, width) == Window(s, offset, width)
  {}

  /** The windows at `offset`, `offset + stride`, ..., put end to end. */
  function Windows<T>(s: seq<T>, offset: nat, width: nat, stride: nat): seq<T>
    requires stride > 0
    decreases |s| - offset
  {
    if offset >= |s| then [] else Window(s, offset, width) + Windows(s, offset + stride, width, stride)
  }

  lemma {:induction false} WindowsTile<T>(s: seq<T>, offset: nat, width: nat)
    requires width > 0 && offset <= |s|
    ensures Windows(s, offset, width, width) == s[offset..]
    decreases |s| - offset
  {
    if offset < |s| {
      if offset + width <= |s| {
        WindowsTile(s, offset + width, width);
        assert s[offset..] == s[offset..offset + width] + s[offset + width..];
      }
    }
  }

  lemma {:induction false} WindowsFit<T>(s: seq<T>, offset: nat, width: nat, stride: nat)
    requires 0 < width <= stride && offset <= |s|
    ensures |Windows(s, offset, width, stride)| <= |s| - offset
    ensures width < stride && width < |s| - offset ==> |Windows(s, offset, width, stride)| < |s| - offset
    decreases |s| - offset
  {
    if offset + stride <= |s| { WindowsFit(s, offset + stride, width, stride); }
  }

  /** A client's pages at offsets `offset`, `offset + limit`, ..., put end to end, as far as a 32-bit
      offset can reach. */
  function Pages<T>(s: seq<T>, offset: U32, limit: U32): seq<T>
    requires limit > 0
    decreases |s| - offset
  {
    if offset >= |s| then []
    else Page(s, offset, limit) + if offset + limit > U32_MAX then [] else Pages(s, offset + limit, limit)
  }

  lemma {:induction false} PagesAreWindows<T>(s: seq<T>, offset: U32, limit: U32)
    requires limit > 0 && |s| <= U32_MAX
    ensures Pages(s, offset, limit) == Windows(s, offset, Min(limit, MAX_BATCH_SIZE), limit)
    decreases |s| - offset
  {
    if offset < |s| {
      hide Window, Page;
      PageIsWindow(s, offset, limit);
      if offset + limit <= U32_MAX { PagesAreWindows(s, offset + limit, limit); }
    }
  }

  /** Stepping through a list with the limit one asks for gives the whole list exactly when the limit
      is within the clamp, or one clamped page is enough. */
  lemma PagesTileExactly<T>(s: seq<T>, limit: U32)
    requires limit > 0 && |s| <= U32_MAX
    ensures Pages(s, 0, limit) == s <==> limit <= MAX_BATCH_SIZE || |s| <= MAX_BATCH_SIZE
  {
    hide Page, Pages;
    var width := Min(limit, MAX_BATCH_SIZE);
    PagesAreWindows(s, 0, limit);
    if width == limit {
      WindowsTile(s, 0, limit);
    } else {
      WindowsFit(s, 0, width, limit);
      if |s| <= width && s != [] {
        assert Window(s, 0, width) == s;
      }
    }
  }

  /** The answers of `configs_paginated` put end to end: each page slices the ids first and drops the
      unreadable ones afterwards. */
  function ConfigPages(alerts: Records, ids: seq<nat>, offset: U32, limit: U32): seq<AlertConfig>
    requires limit > 0
    decreases |ids| - offset
  {
    if offset >= |ids| then []
    else Configs(alerts, Page(ids, offset, limit), alerts.Keys) +
         if offset + limit > U32_MAX then [] else ConfigPages(alerts, ids, offset + limit, limit)
  }

  lemma ConfigsConcat(alerts: Records, a: seq<nat>, b: seq<nat>, keep: set<nat>)
    ensures Configs(alerts, a + b, keep) == Configs(alerts, a, keep) + Configs(alerts, b, keep)
  {
    OnlyConcat(a, b, keep * alerts.Keys);
    LookupConcat(alerts, Only(a, keep * alerts.Keys), Only(b, keep * alerts.Keys));
  }

  lemma ConfigsOne(alerts: Records, id: nat, keep: set<nat>)
    ensures Configs(alerts, [id], keep) == if id in keep && id in alerts then [alerts[id].value] else []
  {
    assert [id][..0] == [];
  }

  lemma ConfigsAppend(alerts: Records, front: seq<nat>, id: nat, keep: set<nat>)
    ensures Configs(alerts, front + [id], keep) ==
            Configs(alerts, front, keep) + if id in keep && id in alerts then [alerts[id].value] else []
  {
    hide Configs;
    ConfigsConcat(alerts, front, [id], keep);
    ConfigsOne(alerts, id, keep);
  }

  lemma {:induction false} ConfigPagesArePages(alerts: Records, ids: seq<nat>, offset: U32, limit: U32)
    requires limit > 0
    ensures ConfigPages(alerts, ids, offset, limit) == Configs(alerts, Pages(ids, offset, limit), alerts.Keys)
    decreases |ids| - offset
  {
    hide Configs, Page;
    if offset >= |ids| {
      ConfigsNone(alerts, alerts.Keys);
    } else if offset + limit <= U32_MAX {
      ConfigPagesArePages(alerts, ids, offset + limit, limit);
      ConfigsConcat(alerts, Page(ids, offset, limit), Pages(ids, offset + limit, limit), alerts.Keys);
    } else {
      assert Page(ids, offset, limit) + [] == Page(ids, offset, limit);
    }
  }

  lemma ConfigsNone(alerts: Records, keep: set<nat>)
    ensures Configs(alerts, [], keep) == []
  {}

  /** Slicing before filtering loses nothing: the pages together answer what one full query answers. */
  lemma ConfigPagesTile(alerts: Records, ids: seq<nat>, limit: U32)
    requires 1 <= limit <= MAX_BATCH_SIZE && |ids| <= U32_MAX
    ensures ConfigPages(alerts, ids, 0, limit) == Configs(alerts, ids, alerts.Keys)
  {
    hide Configs, Pages;
    ConfigPagesArePages(alerts, ids, 0, limit);
    PagesTileExactly(ids, limit);
  }

  /** `get_alerts_updated_since` on a list of ids: skip `offset` qualifying records, take `limit`. */
  function UpdatedPage(alerts: Records, ids: seq<nat>, since: nat, offset: U32, limit: U32): seq<AlertConfig> {
    Window(Configs(alerts, ids, UpdatedIds(alerts, since)), offset, limit)
  }

  /** A client's pages of an incremental sync at offsets `offset`, `offset + limit`, ..., put end to end,
      as far as a 32-bit offset can reach. */
  function UpdatedPages(alerts: Records, ids: seq<nat>, since: nat, offset: U32, limit: U32): seq<AlertConfig>
    requires limit > 0
    decreases |ids| - offset
  {
    if offset >= |ids| then []
    else UpdatedPage(alerts, ids, since, offset, limit) +
         if offset + limit > U32_MAX then [] else UpdatedPages(alerts, ids, since, offset + limit, limit)
  }

  lemma ConfigsFit(alerts: Records, ids: seq<nat>, keep: set<nat>)
    ensures |Configs(alerts, ids, keep)| <= |ids|
  {}

  lemma {:induction false} UpdatedPagesAreRest(alerts: Records, ids: seq<nat>, since: nat, offset: U32, limit: U32)
    requires limit > 0 && |ids| <= U32_MAX
    ensures var all := Configs(alerts, ids, UpdatedIds(alerts, since));
            UpdatedPages(alerts, ids, since, offset, limit) == all[Min(offset, |all|)..]
    decreases |ids| - offset
  {
    hide Configs;
    var all := Configs(alerts, ids, UpdatedIds(alerts, since));
    ConfigsFit(alerts, ids, UpdatedIds(alerts, since));
    if offset < |ids| {
      if offset + limit <= U32_MAX { UpdatedPagesAreRest(alerts, ids, since, offset + limit, limit); }
      WindowThenRest(all, offset, limit);
    }
  }

  lemma WindowThenRest<T>(s: seq<T>, offset: nat, width: nat)
    ensures Window(s, offset, width) + s[Min(offset + width, |s|)..] == s[Min(offset, |s|)..]
  {}

  /** Pages of any non-zero size, put end to end, are the whole filtered list: no record is lost or
      repeated, for every u32 limit. */
  lemma UpdatedPagesTile(alerts: Records, ids: seq<nat>, since: nat, limit: U32)
    requires limit >= 1 && |ids| <= U32_MAX
    ensures UpdatedPages(alerts, ids, since, 0, limit) == Configs(alerts, ids, UpdatedIds(alerts, since))
  {
    UpdatedPagesAreRest(alerts, ids, since, 0, limit);
  }
}
