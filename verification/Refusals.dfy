/** Corpora that pass `validateScaleCorpus` and are refused by the database, one for each unique key that decides. */
module Refusals {
  import opened Prelude
  import opened Corpus
  import opened Text
  import opened JsMap
  import opened ScaleTables
  import opened ScaleConstraints
  import opened ScaleRuns
  import opened Validator

  function Note(version: int, body: string): Version {
    Version(version, "Note", body, version, Supports, ContentHash(body))
  }

  /** A record of the first project of a client. */
  function RecordOf(index: nat, external: nat, clientId: Id, clientName: string, versions: seq<Version>): Record {
    Record(RecordId(0, index), Crm, External(Crm, 0, external), clientId, clientName,
           ProjectId(clientName + " Renewal"), clientName + " Renewal", "account-1", "account-2", Everyone, versions,
           None, false, false)
  }

  function Pair(a: Record, b: Record): ScaleCorpus { ScaleCorpus(0, [a, b], []) }

  /** Two versions with the same content. */
  const REPEATED_BODY :=
    ScaleCorpus(0, [RecordOf(0, 0, ClientId("Acme Bank"), "Acme Bank", [Note(1, "same"), Note(2, "same")])], [])

  /** Two records with the same source and external identifier. */
  const REPEATED_EXTERNAL := Pair(
                               RecordOf(0, 7, ClientId("Acme Bank"), "Acme Bank", [Note(1, "a")]),
                               RecordOf(1, 7, ClientId("Acme Bank"), "Acme Bank", [Note(1, "b")]))

  /** Two clients whose names differ in case only. */
  const REPEATED_ALIAS := Pair(
                            RecordOf(0, 0, ClientId("Acme"), "Acme", [Note(1, "a")]),
                            RecordOf(1, 1, ClientId("ACME"), "ACME", [Note(1, "b")]))

  lemma RepeatedBodyIsRefused()
    ensures WellFormed(REPEATED_BODY.records) && Validates(REPEATED_BODY) && !RunStorable(REPEATED_BODY, [])
  {
    var c := REPEATED_BODY;
    var vs := c.records[0].versions;
    assert vs[0].contentHashKey == vs[1].contentHashKey;
    assert !DistinctHashes(c.records[0]);
  }

  lemma PairValidates(a: Record, b: Record)
    requires a.id != b.id && WellFormedRecord(a) && WellFormedRecord(b) && a.duplicateOf == b.duplicateOf == None
    ensures WellFormed(Pair(a, b).records) && Validates(Pair(a, b))
  {
  }

  lemma RepeatedExternalIsRefused()
    ensures WellFormed(REPEATED_EXTERNAL.records) && Validates(REPEATED_EXTERNAL)
    ensures !RunStorable(REPEATED_EXTERNAL, [])
  {
    var rs := REPEATED_EXTERNAL.records;
    PairValidates(rs[0], rs[1]);
    assert SameExternal(rs[0], rs[1]);
  }

  lemma RepeatedAliasIsRefused()
    ensures WellFormed(REPEATED_ALIAS.records) && Validates(REPEATED_ALIAS) && !RunStorable(REPEATED_ALIAS, [])
  {
    var rs := REPEATED_ALIAS.records;
    PairValidates(rs[0], rs[1]);
    TwoClients(rs[0], rs[1]);
    SameNormalized();
    assert !AliasesDiffer(rs) by {
      hide Normalize;
      assert ClientMap(rs)[0].1 == "Acme" && ClientMap(rs)[1].1 == "ACME";
    }
  }

  lemma TwoClients(a: Record, b: Record)
    requires a.canonicalClientId != b.canonicalClientId
    ensures ClientMap([a, b]) == [ClientPair(a), ClientPair(b)]
  {
    var p, q := ClientPair(a), ClientPair(b);
    assert Map([a, b], ClientPair) == [p, q];
    assert DropLast([p, q]) == [p] && DropLast([p]) == [];
    assert FromPairs([p]) == [p];
    assert [p][1..] == [];
    assert Put([p], q.0, q.1) == [p, q];
  }

  lemma SameNormalized()
    ensures Normalize("Acme", ' ') == Normalize("ACME", ' ')
  {
    assert Collapse("Acme", ' ') == "acme" by {
      assert DropLast("Acme") == "Acm" && DropLast("Acm") == "Ac" && DropLast("Ac") == "A" && DropLast("A") == "";
    }
    assert Collapse("ACME", ' ') == "acme" by {
      assert DropLast("ACME") == "ACM" && DropLast("ACM") == "AC" && DropLast("AC") == "A" && DropLast("A") == "";
    }
  }
}
