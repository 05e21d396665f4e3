/** The `firearms_auctions` table as the services see it: rows with a serial
    `id` and a unique index on `url` (`shared/firearms-schema.ts`). */
module AuctionStore {
  import opened FirearmsSchema

  /** Rows in insertion order with serial ids (the row at index `k` has id
      `k + 1`), and a url index that names exactly the row holding each url. */
  ghost predicate ValidTable(rows: seq<Listing>, urlIndex: map<string, nat>) {
    && (forall k :: 0 <= k < |rows| ==> rows[k].id == k + 1)
    && (forall u :: u in urlIndex ==> 1 <= urlIndex[u] <= |rows| && rows[urlIndex[u] - 1].url == u)
    && (forall k :: 0 <= k < |rows| ==> rows[k].url in urlIndex && urlIndex[rows[k].url] == k + 1)
  }

  /** No two rows share a url (the `unique()` constraint on the column). */
  ghost predicate UniqueUrls(rows: seq<Listing>) {
    forall i, j :: 0 <= i < |rows| && 0 <= j < |rows| && rows[i].url == rows[j].url ==> i == j
  }

  lemma ValidTableHasUniqueUrls(rows: seq<Listing>, urlIndex: map<string, nat>)
    requires ValidTable(rows, urlIndex)
    ensures UniqueUrls(rows)
  {
    forall i, j | 0 <= i < |rows| && 0 <= j < |rows| && rows[i].url == rows[j].url
      ensures i == j
    {
      assert urlIndex[rows[i].url] == i + 1 && urlIndex[rows[j].url] == j + 1;
    }
  }

  /** Replacing a row by one with the same id and url keeps the table valid. */
  lemma UpdateKeepsTable(rows: seq<Listing>, urlIndex: map<string, nat>, row: Listing)
    requires ValidTable(rows, urlIndex)
    requires 1 <= row.id <= |rows| && rows[row.id - 1].url == row.url
    ensures ValidTable(rows[row.id - 1 := row], urlIndex)
  {
    var r := rows[row.id - 1 := row];
    assert forall k :: 0 <= k < |r| ==> r[k].id == rows[k].id && r[k].url == rows[k].url;
  }

  /** Appending a row with the next id and a new url, and indexing it, keeps
      the table valid. */
  lemma InsertKeepsTable(rows: seq<Listing>, urlIndex: map<string, nat>, row: Listing)
    requires ValidTable(rows, urlIndex)
    requires row.id == |rows| + 1 && row.url !in urlIndex
    ensures ValidTable(rows + [row], urlIndex[row.url := row.id])
  {
    var r, m := rows + [row], urlIndex[row.url := row.id];
    assert forall k :: 0 <= k < |rows| ==> r[k] == rows[k];
    forall u | u in m ensures 1 <= m[u] <= |r| && r[m[u] - 1].url == u {
      if u != row.url {
        assert m[u] == urlIndex[u];
      }
    }
  }

  class AuctionTable {
    var rows: seq<Listing>
    var urlIndex: map<string, nat>

    ghost predicate Valid()
      reads this
    {
      ValidTable(rows, urlIndex)
    }

    /** The row with the given id, if there is one. */
    function RowById(id: nat): (r: Option<Listing>)
      reads this
      requires Valid()
      ensures r.Some? <==> 1 <= id <= |rows|
      ensures r.Some? ==> r.value.id == id && r.value in rows && r.value == rows[id - 1]
    {
      if 1 <= id <= |rows| then Some(rows[id - 1]) else None
    }

    constructor()
      ensures Valid() && rows == [] && urlIndex == map[]
    {
      rows := [];
      urlIndex := map[];
    }

    /** `SELECT … WHERE url = ? LIMIT 1`. */
    method FindByUrl(url: string) returns (r: Option<Listing>)
      requires Valid()
      ensures r.Some? <==> exists k :: 0 <= k < |rows| && rows[k].url == url
      ensures r.Some? ==> r.value.url == url && r.value in rows
    {
      if url in urlIndex {
        r := Some(rows[urlIndex[url] - 1]);
      } else {
        r := None;
      }
    }

    /** `INSERT … RETURNING`: the new row gets the next serial id. The caller
        has checked that the url is not yet present. */
    method Insert(row: Listing) returns (saved: Listing)
      requires Valid()
      requires forall k :: 0 <= k < |rows| ==> rows[k].url != row.url
      modifies this
      ensures Valid()
      ensures saved == row.(id := |old(rows)| + 1)
      ensures rows == old(rows) + [saved]
    {
      assert row.url !in urlIndex;
      saved := row.(id := |rows| + 1);
      InsertKeepsTable(rows, urlIndex, saved);
      rows := rows + [saved];
      urlIndex := urlIndex[row.url := saved.id];
    }

    /** `UPDATE … WHERE id = ?` for a change that keeps the url. */
    method Update(row: Listing)
      requires Valid()
      requires 1 <= row.id <= |rows| && rows[row.id - 1].url == row.url
      modifies this
      ensures Valid()
      ensures rows == old(rows)[row.id - 1 := row]
      ensures urlIndex == old(urlIndex)
    {
      UpdateKeepsTable(rows, urlIndex, row);
      rows := rows[row.id - 1 := row];
    }
  }
}
