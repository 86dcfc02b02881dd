/** The batch loop of main.py: check the signatures, then walk the roster,
    skip blank names and unranked Excellence rows, draw each remaining
    certificate and add it to the archive under a file name built from the
    recipient, the certificate type and the rank. */
module Batch {
  import opened Wrappers
  import opened Strings
  import opened Wording
  import opened Layout
  import opened Prizes

  /** The form inputs every certificate of a batch shares. */
  datatype Settings = Settings(
    certType: string,
    eventName: string,
    eventDate: Option<string>,
    speaker: Option<Speaker>,
    signers: seq<Signer>)

  /** The key under which a row's prize is looked up: the stripped name, as
      main.py does, or the roster value that was offered for selection. */
  datatype Lookup = AsWritten | Corrected

  /** Everything one batch depends on besides the roster: the template's size,
      text measurement, signature decoding, the form inputs, the prize
      assignments, whether drawing and saving the certificate of roster
      row `i` completes (`renders(i)`), and the prize lookup rule. */
  datatype Job = Job(
    template: Canvas,
    measure: Measure,
    decoder: Decoder,
    settings: Settings,
    prizes: map<string, Rank>,
    renders: nat -> bool,
    lookup: Lookup)

  datatype BatchError = MissingSignature

  /** One archive entry: its file name, the certificate's arguments and its drawing. */
  datatype Entry = Entry(filename: string, request: Request, page: seq<DrawOp>)

  /** What the loop does with one roster row. */
  datatype RowPlan = Skip | Render(name: string, rank: Option<Rank>)

  const CertificateSuffix: string := "_certificate.pdf"

  function RankSuffix(rank: Option<Rank>): string
  {
    if rank.Some? then "_" + Lower(rank.value.Name()) else ""
  }

  /** The three rank suffixes, spelled out. */
  lemma RankSuffixes()
    ensures RankSuffix(Some(First)) == "_first"
    ensures RankSuffix(Some(Second)) == "_second"
    ensures RankSuffix(Some(Third)) == "_third"
  {
    LowerCapitalised('F', "irst");
    LowerCapitalised('S', "econd");
    LowerCapitalised('T', "hird");
  }

  /** The archive name of a certificate: the name with spaces turned into
      underscores, the lower-cased type, the lower-cased rank if any, and
      "_certificate.pdf". */
  function Filename(name: string, certType: string, rank: Option<Rank>): (f: string)
    ensures |f| == |name| + 1 + |certType| + |RankSuffix(rank)| + |CertificateSuffix|
    ensures f[..|name|] == ReplaceSpaces(name) && f[|name|] == '_'
    ensures f[|f| - |CertificateSuffix|..] == CertificateSuffix
  {
    ReplaceSpaces(name) + "_" + Lower(certType) + RankSuffix(rank) + CertificateSuffix
  }

  /** No file name contains a space unless the certificate type does. */
  lemma FilenameHasNoSpace(name: string, certType: string, rank: Option<Rank>)
    requires ' ' !in certType
    ensures ' ' !in Filename(name, certType, rank)
  {
    LowerKeepsNoSpace(certType);
    RankSuffixes();
    var parts := [ReplaceSpaces(name), "_", Lower(certType), RankSuffix(rank), CertificateSuffix];
    assert forall k :: 0 <= k < |parts| ==> ' ' !in parts[k];
    assert Filename(name, certType, rank) == parts[0] + parts[1] + parts[2] + parts[3] + parts[4];
  }

  /** For one recipient and type, the file names of different ranks differ. */
  lemma FilenameDistinguishesRank(name: string, certType: string, r1: Option<Rank>, r2: Option<Rank>)
    ensures Filename(name, certType, r1) == Filename(name, certType, r2) <==> r1 == r2
  {
    var p := ReplaceSpaces(name) + "_" + Lower(certType);
    assert Filename(name, certType, r1) == p + RankSuffix(r1) + CertificateSuffix;
    assert Filename(name, certType, r2) == p + RankSuffix(r2) + CertificateSuffix;
    if Filename(name, certType, r1) == Filename(name, certType, r2) {
      CancelAffixes(p, RankSuffix(r1), RankSuffix(r2), CertificateSuffix);
      RankSuffixInjective(r1, r2);
    }
  }

  /** Different ranks, or a rank and none, have different suffixes. */
  lemma RankSuffixInjective(r1: Option<Rank>, r2: Option<Rank>)
    requires RankSuffix(r1) == RankSuffix(r2)
    ensures r1 == r2
  {
    RankSuffixes();
    assert |RankSuffix(r1)| == |RankSuffix(r2)|;
    if r1.Some? && r2.Some? {
      assert RankSuffix(r1)[1] == RankSuffix(r2)[1];
    }
  }

  /** Equal strings with the same prefix and suffix have equal middles. */
  lemma CancelAffixes(p: string, a: string, b: string, s: string)
    requires p + a + s == p + b + s
    ensures a == b
  {
    var t := p + a + s;
    assert |a| == |b|;
    assert a == t[|p|..|p| + |a|];
    assert b == (p + b + s)[|p|..|p| + |b|];
  }

  /** Names are not deduplicated: "A B" and "A_B" get the same file name. */
  lemma DistinctNamesCanCollide(certType: string, rank: Option<Rank>)
    ensures Filename("A B", certType, rank) == Filename("A_B", certType, rank)
  {
    assert ReplaceSpaces("A B") == "A_B";
    assert ReplaceSpaces("A_B") == "A_B";
  }

  /** The skip rules with the prize lookup done under `key`: a blank name is
      skipped; under Excellence a row without an assigned rank is skipped. */
  function PlanWithKey(name: string, key: string, certType: string, prizes: map<string, Rank>): RowPlan
  {
    if name == "" then Skip
    else if certType == "Excellence" then
      (if key in prizes then Render(name, Some(prizes[key])) else Skip)
    else Render(name, None)
  }

  /** The row rules as main.py writes them: the prize is looked up under the
      stripped name, although the assignments are keyed by roster values. */
  function PlanRowAsWritten(row: string, certType: string, prizes: map<string, Rank>): (plan: RowPlan)
    ensures certType == "Excellence" && Strip(row) !in prizes ==> plan == Skip
  {
    PlanWithKey(Strip(row), Strip(row), certType, prizes)
  }

  /** The row rules with the prize looked up under the roster value that was
      offered for selection; the certificate still carries the stripped name. */
  function PlanRow(row: string, certType: string, prizes: map<string, Rank>): (plan: RowPlan)
    ensures certType == "Excellence" && row in prizes && Strip(row) != "" ==>
              plan == Render(Strip(row), Some(prizes[row]))
  {
    PlanWithKey(Strip(row), row, certType, prizes)
  }

  /** A row is drawn exactly when its name has a non-whitespace character
      and, under Excellence, the row was assigned a rank; it is drawn with
      the stripped name and, under Excellence, that rank, otherwise none. */
  lemma PlanRowCharacterised(row: string, certType: string, prizes: map<string, Rank>)
    ensures PlanRow(row, certType, prizes).Render? <==>
              (exists i :: 0 <= i < |row| && !IsSpace(row[i]))
              && (certType == "Excellence" ==> row in prizes)
    ensures PlanRow(row, certType, prizes).Render? ==>
              && PlanRow(row, certType, prizes).name == Strip(row)
              && PlanRow(row, certType, prizes).rank == (if certType == "Excellence" then Some(prizes[row]) else None)
  {
    StripEmptyIffBlank(row);
  }

  /** The rule main.py runs: a row is drawn exactly when its name has a
      non-whitespace character and, under Excellence, its stripped name was
      assigned a rank; it is drawn with the stripped name and, under
      Excellence, that name's rank, otherwise none. */
  lemma PlanRowAsWrittenCharacterised(row: string, certType: string, prizes: map<string, Rank>)
    ensures PlanRowAsWritten(row, certType, prizes).Render? <==>
              (exists i :: 0 <= i < |row| && !IsSpace(row[i]))
              && (certType == "Excellence" ==> Strip(row) in prizes)
    ensures PlanRowAsWritten(row, certType, prizes).Render? ==>
              && PlanRowAsWritten(row, certType, prizes).name == Strip(row)
              && PlanRowAsWritten(row, certType, prizes).rank ==
                   (if certType == "Excellence" then Some(prizes[Strip(row)]) else None)
  {
    StripEmptyIffBlank(row);
  }

  /** A prize winner whose roster value has surrounding whitespace is skipped
      as written: " Alice", selected for First prize, gets no certificate. */
  lemma StrippedLookupSkipsWinner()
    ensures Awarded(" Alice", [" Alice"], [], []) == Some(First)
    ensures PlanRowAsWritten(" Alice", "Excellence", map[" Alice" := First]) == Skip
    ensures PlanRow(" Alice", "Excellence", map[" Alice" := First]) == Render("Alice", Some(First))
  {
    assert StripLeft(" Alice") == "Alice" by {
      assert StripLeft(" Alice") == StripLeft(" Alice"[1..]);
      assert " Alice"[1..] == "Alice";
    }
    assert StripRight("Alice") == "Alice";
  }

  /** Both rules agree on a roster value without surrounding whitespace. */
  lemma LookupsAgreeOnTrimmedRow(row: string, certType: string, prizes: map<string, Rank>)
    requires Strip(row) == row
    ensures PlanRowAsWritten(row, certType, prizes) == PlanRow(row, certType, prizes)
  {
  }

  /** The row rule of a batch, by its lookup. */
  function PlanOf(row: string, job: Job): RowPlan
  {
    match job.lookup
    case AsWritten => PlanRowAsWritten(row, job.settings.certType, job.prizes)
    case Corrected => PlanRow(row, job.settings.certType, job.prizes)
  }

  function RequestFor(s: Settings, name: string, rank: Option<Rank>): Request
  {
    Request(name, s.certType, rank, s.eventName, s.eventDate, s.speaker, s.signers)
  }

  /** Whether roster row `i`, holding `row`, ends up in the archive. */
  predicate Produces(row: string, i: nat, job: Job)
  {
    PlanOf(row, job).Render? && job.renders(i)
  }

  /** The archive entry of a roster row that is drawn. */
  function EntryOf(row: string, job: Job): Entry
    requires PlanOf(row, job).Render?
  {
    var plan := PlanOf(row, job);
    var req := RequestFor(job.settings, plan.name, plan.rank);
    Entry(Filename(plan.name, job.settings.certType, plan.rank), req,
          CertificateOps(job.template, req, job.measure, job.decoder))
  }

  /** The archive's entries, in roster order. */
  function Entries(rows: seq<string>, job: Job): (r: seq<Entry>)
    ensures |r| == |Kept(rows, job)| <= |rows|
  {
    if rows == [] then []
    else
      var i := |rows| - 1;
      Entries(rows[..i], job) + (if Produces(rows[i], i, job) then [EntryOf(rows[i], job)] else [])
  }

  /** The roster rows that end up in the archive, in order. */
  function Kept(rows: seq<string>, job: Job): (kept: seq<nat>)
    ensures |kept| <= |rows|
  {
    if rows == [] then []
    else
      var i := |rows| - 1;
      Kept(rows[..i], job) + (if Produces(rows[i], i, job) then [i] else [])
  }

  /** The rows kept are roster rows, strictly increasing, and a row is kept
      exactly when it is drawn and its drawing completes. */
  lemma {:induction false} KeptRows(rows: seq<string>, job: Job)
    ensures var kept := Kept(rows, job);
      && (forall k :: 0 <= k < |kept| ==> kept[k] < |rows| && Produces(rows[kept[k]], kept[k], job))
      && (forall k, k' :: 0 <= k < k' < |kept| ==> kept[k] < kept[k'])
      && (forall i :: 0 <= i < |rows| ==> (i in kept <==> Produces(rows[i], i, job)))
  {
    if rows != [] {
      var i := |rows| - 1;
      var init := rows[..i];
      KeptRows(init, job);
      var kept, before := Kept(rows, job), Kept(init, job);
      var last := if Produces(rows[i], i, job) then [i] else [];
      assert kept == before + last;
      forall k | 0 <= k < |kept|
        ensures kept[k] < |rows| && Produces(rows[kept[k]], kept[k], job)
      {
        if k < |before| {
          assert kept[k] == before[k] && rows[before[k]] == init[before[k]];
        }
      }
      forall j | 0 <= j < |rows|
        ensures j in kept <==> Produces(rows[j], j, job)
      {
        if j < i {
          assert rows[j] == init[j];
          assert j in kept <==> j in before;
        } else {
          assert i !in before;
        }
      }
    }
  }

  /** The archive is the roster, in order, with every skipped or failed row
      left out: entry k belongs to the k-th kept row. */
  lemma {:induction false} EntriesFollowRoster(rows: seq<string>, job: Job)
    ensures var kept := Kept(rows, job);
      && |Entries(rows, job)| == |kept|
      && (forall k :: 0 <= k < |kept| ==> kept[k] < |rows| && Produces(rows[kept[k]], kept[k], job)
                                          && Entries(rows, job)[k] == EntryOf(rows[kept[k]], job))
  {
    KeptRows(rows, job);
    if rows != [] {
      var i := |rows| - 1;
      var init := rows[..i];
      EntriesFollowRoster(init, job);
      KeptRows(init, job);
      var kept, before := Kept(rows, job), Kept(init, job);
      var entries, earlier := Entries(rows, job), Entries(init, job);
      if Produces(rows[i], i, job) {
        assert kept == before + [i];
        assert entries == earlier + [EntryOf(rows[i], job)];
      } else {
        assert kept == before;
        assert entries == earlier;
      }
      forall k | 0 <= k < |before|
        ensures entries[k] == EntryOf(rows[kept[k]], job)
      {
        assert entries[k] == earlier[k] && kept[k] == before[k];
        assert rows[before[k]] == init[before[k]];
      }
    }
  }

  /** Under Excellence every entry carries a rank, and its file name the
      rank's suffix; under any other type no entry carries one. */
  lemma {:induction false} EntriesCarryRank(rows: seq<string>, job: Job)
    ensures forall e :: e in Entries(rows, job) ==>
      && (e.request.rank.Some? <==> job.settings.certType == "Excellence")
      && e.request.certType == job.settings.certType
      && e.filename == Filename(e.request.name, e.request.certType, e.request.rank)
  {
    if rows != [] {
      var i := |rows| - 1;
      EntriesCarryRank(rows[..i], job);
      if Produces(rows[i], i, job) {
        EntryOfShape(rows[i], job);
        assert Entries(rows, job) == Entries(rows[..i], job) + [EntryOf(rows[i], job)];
      } else {
        assert Entries(rows, job) == Entries(rows[..i], job);
      }
    }
  }

  /** One entry carries a rank iff the type is Excellence, and is filed under
      the name built from its own fields. */
  lemma EntryOfShape(row: string, job: Job)
    requires PlanOf(row, job).Render?
    ensures var e := EntryOf(row, job);
      && (e.request.rank.Some? <==> job.settings.certType == "Excellence")
      && e.request.certType == job.settings.certType
      && e.filename == Filename(e.request.name, e.request.certType, e.request.rank)
  {
  }

  /** Every row that was assigned a prize, has a non-blank name and draws
      without error gets its certificate, with that rank: always under the
      corrected lookup, and as written when the roster value has no
      surrounding whitespace. */
  lemma AwardedRowsGetCertificates(rows: seq<string>, job: Job, i: nat)
    requires job.settings.certType == "Excellence"
    requires i < |rows| && rows[i] in job.prizes && Strip(rows[i]) != "" && job.renders(i)
    requires job.lookup == Corrected || Strip(rows[i]) == rows[i]
    ensures exists k :: 0 <= k < |Entries(rows, job)| && Entries(rows, job)[k] == EntryOf(rows[i], job)
                        && Entries(rows, job)[k].request.rank == Some(job.prizes[rows[i]])
  {
    EntriesFollowRoster(rows, job);
    KeptRows(rows, job);
    var kept := Kept(rows, job);
    assert Produces(rows[i], i, job);
    var k :| 0 <= k < |kept| && kept[k] == i;
    assert Entries(rows, job)[k] == EntryOf(rows[i], job);
  }

  /** Whether every configured signer has uploaded a signature. */
  predicate SignaturesUploaded(signers: seq<Signer>)
  {
    forall j :: 0 <= j < |signers| ==> signers[j].signature.Some?
  }

  /** The whole batch: refused outright when a configured signer has no
      signature, otherwise the archive's entries. */
  function RunBatch(rows: seq<string>, job: Job): (r: Result<seq<Entry>, BatchError>)
    ensures r.Failure? <==> exists j :: 0 <= j < |job.settings.signers| && job.settings.signers[j].signature.None?
    ensures job.settings.signers == [] ==> r.Success?
    ensures r.Success? ==> |r.value| <= |rows| && (rows == [] ==> r.value == [])
  {
    if !SignaturesUploaded(job.settings.signers) then Failure(MissingSignature)
    else Success(Entries(rows, job))
  }

  /** The file name as the loop builds it: extended piece by piece. */
  method BuildFilename(name: string, certType: string, rank: Option<Rank>) returns (filename: string)
    ensures filename == Filename(name, certType, rank)
  {
    filename := ReplaceSpaces(name) + "_" + Lower(certType);
    if rank.Some? {
      filename := filename + "_" + Lower(rank.value.Name());
    }
    filename := filename + "_certificate.pdf";
  }

  /** The generation loop of main.py; the prize is looked up under the
      stripped name (as written) or the roster value (corrected). */
  method GenerateCertificates(rows: seq<string>, job: Job) returns (r: Result<seq<Entry>, BatchError>)
    ensures r == RunBatch(rows, job)
  {
    var s := job.settings;
    if !SignaturesUploaded(s.signers) {
      return Failure(MissingSignature);
    }
    var entries: seq<Entry> := [];
    for i := 0 to |rows|
      invariant entries == Entries(rows[..i], job)
    {
      assert rows[..i + 1][..i] == rows[..i];
      assert Entries(rows[..i + 1], job) == entries
        + (if Produces(rows[i], i, job) then [EntryOf(rows[i], job)] else []);
      ghost var plan := PlanOf(rows[i], job);
      var name := Strip(rows[i]);
      if name == "" {
        assert plan == Skip;
        continue;
      }
      var rank: Option<Rank> := None;
      if s.certType == "Excellence" {
        var key := if job.lookup == AsWritten then name else rows[i];
        rank := Get(job.prizes, key);
        if rank.None? {
          assert plan == Skip;
          continue;
        }
      }
      assert plan == Render(name, rank);
      var req := RequestFor(s, name, rank);
      var page := CreateCertificate(job.template, req, job.measure, job.decoder);
      if job.renders(i) {
        var filename := BuildFilename(name, s.certType, rank);
        assert Entry(filename, req, page) == EntryOf(rows[i], job);
        entries := entries + [Entry(filename, req, page)];
      }
    }
    assert rows[..|rows|] == rows;
    return Success(entries);
  }

  /** Three recipients whose second drawing fails give two entries, for the
      first and the third. */
  lemma SecondOfThreeFails(job: Job)
    requires job.settings.certType == "Participation"
    requires job.renders(0) && !job.renders(1) && job.renders(2)
    ensures var rows := ["Ann", "Bob", "Cy"];
      |Entries(rows, job)| == 2
      && Entries(rows, job)[0].request.name == "Ann"
      && Entries(rows, job)[1].request.name == "Cy"
  {
    var rows := ["Ann", "Bob", "Cy"];
    StripKeepsTrimmed("Ann");
    StripKeepsTrimmed("Bob");
    StripKeepsTrimmed("Cy");
    assert PlanOf("Ann", job) == Render("Ann", None);
    assert PlanOf("Bob", job) == Render("Bob", None);
    assert PlanOf("Cy", job) == Render("Cy", None);
    assert Produces("Ann", 0, job) && !Produces("Bob", 1, job) && Produces("Cy", 2, job);
    assert rows[..2] == ["Ann", "Bob"] && rows[..2][..1] == ["Ann"] && rows[..2][..1][..0] == [];
    assert Kept(["Ann"], job) == [0];
    assert Kept(["Ann", "Bob"], job) == [0];
    assert Kept(rows, job) == [0, 2];
    EntriesFollowRoster(rows, job);
  }

  /** Whatever the lookup, the batches agree when no roster value has
      surrounding whitespace. */
  lemma {:induction false} LookupsAgreeOnTrimmedRoster(rows: seq<string>, job: Job)
    requires forall i :: 0 <= i < |rows| ==> Strip(rows[i]) == rows[i]
    ensures RunBatch(rows, job.(lookup := AsWritten)) == RunBatch(rows, job.(lookup := Corrected))
  {
    EntriesAgreeOnTrimmedRoster(rows, job);
  }

  lemma {:induction false} EntriesAgreeOnTrimmedRoster(rows: seq<string>, job: Job)
    requires forall i :: 0 <= i < |rows| ==> Strip(rows[i]) == rows[i]
    ensures Entries(rows, job.(lookup := AsWritten)) == Entries(rows, job.(lookup := Corrected))
  {
    if rows != [] {
      var i := |rows| - 1;
      var init := rows[..i];
      assert forall j :: 0 <= j < i ==> init[j] == rows[j];
      EntriesAgreeOnTrimmedRoster(init, job);
      var j1, j2 := job.(lookup := AsWritten), job.(lookup := Corrected);
      LookupsAgreeOnTrimmedRow(rows[i], job.settings.certType, job.prizes);
      assert PlanOf(rows[i], j1) == PlanOf(rows[i], j2);
      if Produces(rows[i], i, j1) {
        assert EntryOf(rows[i], j1) == EntryOf(rows[i], j2);
      }
    }
  }

  /** The finding at batch level: a roster holding only " Alice", selected for
      First prize, gives an empty archive as written and Alice's certificate
      with the corrected lookup. */
  lemma StrippedLookupEmptiesBatch(job: Job)
    requires job.settings.certType == "Excellence" && SignaturesUploaded(job.settings.signers)
    requires job.prizes == map[" Alice" := First] && job.renders(0)
    ensures RunBatch([" Alice"], job.(lookup := AsWritten)) == Success([])
    ensures var r := RunBatch([" Alice"], job.(lookup := Corrected));
      r.Success? && |r.value| == 1 && r.value[0].request.name == "Alice"
      && r.value[0].request.rank == Some(First)
  {
    StrippedLookupSkipsWinner();
    var rows := [" Alice"];
    assert rows[..0] == [];
  }
}
