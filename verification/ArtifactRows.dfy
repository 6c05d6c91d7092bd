/** The artifact loop run against a later state of the table. */
module ArtifactRows {
  import opened Model
  import opened Transactions
  import opened Steps

  lemma {:induction false} FindAppend(rows: seq<ArtifactRow>, more: seq<ArtifactRow>, key: string)
    ensures FindArtifact(rows + more, key) ==
            if FindArtifact(rows, key).Some? then FindArtifact(rows, key) else FindArtifact(more, key)
  {
    if rows == [] {
      assert rows + more == more;
    } else {
      assert (rows + more)[1..] == rows[1..] + more;
      FindAppend(rows[1..], more, key);
    }
  }

  lemma FindOne(row: ArtifactRow, key: string)
    ensures FindArtifact([row], key) == if row.meta.key == key then Some(row.meta) else None
  {
    assert [row][1..] == [];
  }

  /** Only keys the table did not have are added. */
  lemma {:induction false} AddedAreNew(rows: seq<ArtifactRow>, j: JobId, a: AttemptId, prefix: string, list: seq<Artifact>,
                                       added: seq<ArtifactRow>, k: nat)
    requires AddArtifacts(rows, j, a, prefix, list) == Rows(rows + added) && k < |added|
    ensures FindArtifact(rows, added[k].meta.key).None?
    decreases |list|
  {
    assert |rows + added| > |rows|;
    if list == [] {
    } else if FindArtifact(rows, list[0].key).Some? {
      AddedAreNew(rows, j, a, prefix, list[1..], added, k);
    } else {
      var row := ArtifactRow(j, a, list[0]);
      var rest := AddedRest(rows, j, a, prefix, list, added);
      if k > 0 {
        AddedAreNew(rows + [row], j, a, prefix, list[1..], rest, k - 1);
        FindAppend(rows, [row], added[k].meta.key);
      }
    }
  }

  lemma AddedRest(rows: seq<ArtifactRow>, j: JobId, a: AttemptId, prefix: string, list: seq<Artifact>,
                  added: seq<ArtifactRow>) returns (rest: seq<ArtifactRow>)
    requires list != [] && AddArtifacts(rows, j, a, prefix, list) == Rows(rows + added)
    requires FindArtifact(rows, list[0].key).None?
    ensures added == [ArtifactRow(j, a, list[0])] + rest
    ensures AddArtifacts(rows + [ArtifactRow(j, a, list[0])], j, a, prefix, list[1..])
            == Rows(rows + [ArtifactRow(j, a, list[0])] + rest)
  {
    var row := ArtifactRow(j, a, list[0]);
    AddedArtifacts(rows + [row], j, a, prefix, list[1..]);
    var out := rows + added;
    assert rows + [row] <= out;
    rest := added[1..];
    assert out[|rows|] == row && added[0] == out[|rows|];
    assert rows + [row] + rest == out;
  }

  /** Every row that `early` has under a key, `late` has too. */
  ghost predicate Extends(early: seq<ArtifactRow>, late: seq<ArtifactRow>) {
    forall key :: FindArtifact(early, key).Some? ==> FindArtifact(late, key) == FindArtifact(early, key)
  }

  lemma PrefixExtends(early: seq<ArtifactRow>, late: seq<ArtifactRow>)
    requires early <= late
    ensures Extends(early, late)
  {
    forall key | FindArtifact(early, key).Some? ensures FindArtifact(late, key) == FindArtifact(early, key) {
      assert late == early + late[|early|..];
      FindAppend(early, late[|early|..], key);
    }
  }

  lemma ExtendsAppend(early: seq<ArtifactRow>, late: seq<ArtifactRow>, row: ArtifactRow)
    requires Extends(early, late) && FindArtifact(late, row.meta.key).None?
    ensures Extends(early + [row], late + [row])
  {
    forall key | FindArtifact(early + [row], key).Some?
      ensures FindArtifact(late + [row], key) == FindArtifact(early + [row], key)
    {
      FindAppend(early, [row], key);
      FindAppend(late, [row], key);
      FindOne(row, key);
    }
  }

  /** If the table has since gained none of the keys to be added, the loop adds the same rows. */
  lemma {:induction false} AddedLater(early: seq<ArtifactRow>, late: seq<ArtifactRow>, j: JobId, a: AttemptId, prefix: string,
                                      list: seq<Artifact>, added: seq<ArtifactRow>)
    requires Extends(early, late) && AddArtifacts(early, j, a, prefix, list) == Rows(early + added)
    requires forall k :: 0 <= k < |added| ==> FindArtifact(late, added[k].meta.key).None?
    ensures AddArtifacts(late, j, a, prefix, list) == Rows(late + added)
    decreases |list|
  {
    if list == [] {
      assert |early + added| == |early|;
      assert late + added == late;
    } else if FindArtifact(early, list[0].key).Some? {
      AddedLater(early, late, j, a, prefix, list[1..], added);
    } else {
      var row := ArtifactRow(j, a, list[0]);
      var rest := AddedRest(early, j, a, prefix, list, added);
      assert added[0] == row;
      ExtendsAppend(early, late, row);
      forall k | 0 <= k < |rest| ensures FindArtifact(late + [row], rest[k].meta.key).None? {
        assert rest[k] == added[k + 1];
        AddedAreNew(early + [row], j, a, prefix, list[1..], rest, k);
        FindAppend(early, [row], rest[k].meta.key);
        FindAppend(late, [row], rest[k].meta.key);
      }
      AddedLater(early + [row], late + [row], j, a, prefix, list[1..], rest);
      assert late + [row] + rest == late + added;
    }
  }
}
