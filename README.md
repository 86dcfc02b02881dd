# Certificate generator: a verified model of its layout and batch logic

The certificate generator is a Streamlit script (`main.py`). It draws certificates
for everyone on a roster over a fixed template image and collects the PDFs in one
zip archive. This project models the deterministic logic under the UI and proves
properties of it:

- **Strings** — the Python `str` operations the program relies on: `strip()`
  (with Python's whitespace set), `lower()` and `replace(' ', '_')`.
- **Wording** — the texts on a certificate: the title, the rank line, the
  achievement phrase for each certificate type, the event, date and speaker lines,
  and the prize ranks.
- **Layout** — `create_certificate`, seen as the ordered list of drawing calls it
  makes on the transparent layer. This covers:
  - every text centred horizontally;
  - fixed vertical anchors for the title, header and name;
  - the chain of gaps below the name underline (event, date, speaker);
  - signer slots spaced by the number of configured signers;
  - signature images resized to 200 pixels wide, with a placeholder line when
    the image cannot be used.

  The pure function `CertificateOps` specifies the drawing. The methods
  `DrawMainText`, `DrawDetails`, `DrawSignatures`, `DrawSigner`,
  `DrawSignatureImage` and `CreateCertificate` draw step by step as the source
  does, reassigning `x` and `y` and looping over the signers. They are proved
  equal to that function.
- **Prizes** — the Excellence prize allocation. Three loops fill one
  name-to-rank dictionary, and each later category is offered the roster minus
  the earlier winners.
- **Batch** — the generation loop. It checks that every signer has a signature,
  skips blank names and unranked Excellence rows, isolates a failed drawing, and
  builds each file name. It appends entries to the archive in roster order.
  The prize lookup is part of the job (`Batch.Lookup`). `AsWritten` looks the
  rank up under the stripped name, as main.py:310 does. `Corrected` looks it up
  under the roster value that was offered for selection (see "## Findings").
  `GenerateCertificates`, `RunBatch`, `Entries` and the lemmas about them hold
  for both rules unless a lemma says otherwise.

Text measurement (`draw.textbbox`) is the parameter `Measure`. Opening an uploaded
signature is the parameter `Decoder`. Whether drawing and saving roster row `i`
completes is the oracle `renders(i)`. Main-text coordinates use true division in
the source and are modelled as `real`. Signature coordinates use `//` and are
`int`: for a positive divisor, Dafny's `/` is Python's floor division.

Where a reader might expect otherwise, the code does the following, and the
model follows it:
- The header and the name are placed at fixed anchors, not below the rank line
  above them; only the rank line follows the title, 90 below its bottom. So the
  rank line can overlap the header and the name on a short canvas
  (`Layout.RankLineCanOverlapHeader`).
- The date and speaker lines are spaced a fixed 70 pixels from the top of the
  line above (the event line sits 50 below the underline), so a detail text
  taller than 70 pixels overlaps the next line (`Layout.DetailLinesCanOverlap`).
- The resized signature height is truncated, not rounded.
- The file name keeps the recipient's case and replaces only the ASCII space.
- There is no failure manifest and no cancellation. A failed row is reported
  on screen and left out of the archive.
- The speaker line is drawn only inside the event block.

## Model

| member | source | states |
|---|---|---|
| Strings.StripLeftShape | main.py:304 | left-stripping removes exactly the leading whitespace: the result is a suffix, everything cut off is whitespace, and the result is empty or starts with non-whitespace |
| Strings.StripRightShape | main.py:304 | right-stripping removes exactly the trailing whitespace: the result is a prefix, everything cut off is whitespace, and the result is empty or ends with non-whitespace |
| Strings.StripShape | main.py:304 | `strip()` returns the slice between the leading and trailing whitespace; it neither starts nor ends with whitespace, and all that is cut off is whitespace |
| Strings.StripEmptyIffBlank | main.py:304-306 | a name strips to the empty string exactly when every character is whitespace, so exactly those rows are skipped as blank |
| Strings.StripKeepsTrimmed | main.py:304 | a non-empty string with no whitespace at either end is unchanged by `strip()` |
| Strings.StripIdempotent | main.py:304 | stripping a stripped name changes nothing |
| Strings.LowerChar | main.py:330-332 | a lower-cased character is never an ASCII capital, and characters that are not capitals are unchanged |
| Strings.Lower | main.py:330-332 | `lower()` keeps the length; no ASCII capital remains; each capital becomes the letter 32 code points above it; every other character is kept in place |
| Strings.LowerIdempotent | main.py:330-332 | lower-casing an already lower-cased string changes nothing |
| Strings.LowerCapitalised | main.py:331-332 | a capitalised word such as a rank name is lower-cased by lower-casing its first letter alone |
| Strings.LowerKeepsNoSpace | main.py:330-332 | lower-casing a string without spaces yields a string without spaces |
| Strings.ReplaceSpaces | main.py:330 | `replace(' ', '_')` keeps the length, turns each space into `_`, leaves every other character in place, and leaves no space |
| Wording.TitleText | main.py:29 | the title is "Of " followed by the certificate type, which can be read back from position 3 |
| Wording.RankText | main.py:39 | the rank line is the rank's name followed by " Prize" |
| Wording.AchievementPhrase | main.py:69-74 | Excellence gets "for outstanding achievement in", Appreciation gets "for valuable contribution to", and Participation and any unknown type get "for participating in" |
| Wording.EventTextRoundTrip | main.py:74 | the event line holds the event name intact between the phrase plus a space and " Event by OSPC", so it can be read back |
| Wording.DateText | main.py:75 | the date line is "on ", then the formatted date, then " at VIT Chennai" |
| Wording.SpeakerText | main.py:90-93 | the speaker line starts "Speaker: " + name; " - " + designation follows exactly when the designation is non-empty |
| Layout.CentredText | main.py:30-33 | a centred text's origin satisfies `x + w/2 == img_w/2` for its measured width |
| Layout.MainTextCentred | main.py:28-99 | every text among the main drawing calls (title, rank, header, name, event, date, speaker) is horizontally centred |
| Layout.OptionalBlocksPresence | main.py:38-90 | the rank line is drawn iff a rank is given; event and date lines iff both event name and date are given; the speaker line iff in addition the speaker's name is non-empty |
| Layout.AnchorsIgnoreOptionalBlocks | main.py:34-65 | title at `img_h/3`, header at `img_h/2 - 30` and name at `img_h/2 + 80`; two requests with the same name and type get the same title, header, name and underline whatever their rank, event or speaker |
| Layout.VerticalGaps | main.py:43-98 | rank 90 below the title's bottom; underline 30 below the name's bottom, spanning `img_w/4` to `3*img_w/4`; event 50 below the underline; date and speaker each 70 below the top of the line above |
| Layout.ChainBelowNameDescends | main.py:59-98 | name, underline, event, date and speaker lines run strictly downwards |
| Layout.OmittingRankDropsOnlyRankLine | main.py:37-52 | removing the rank removes the rank line and leaves every other drawing call unchanged and in order |
| Layout.OmittingSpeakerDropsOnlySpeakerLine | main.py:89-99 | removing the speaker removes only the last main text, the speaker line |
| Layout.RankLineCanOverlapHeader | main.py:34-51 | on a 900-pixel canvas with 100-pixel texts, the rank line starts below the header's top and reaches into the name: the fixed anchors do not keep blocks apart |
| Layout.DetailLinesCanOverlap | main.py:78-98 | with 100-pixel-high texts the date line starts inside the event line and the speaker line inside the date line: the detail lines are spaced from tops, not bottoms |
| Layout.ResizedHeight | main.py:115-118 | the resized height `r` keeps the aspect ratio within one pixel: `r*w <= 200*h < (r+1)*w` |
| Layout.SlotCentresInsideCanvas | main.py:102-106 | with `spacing = img_w // (n+1)`, every slot centre `spacing*i` (1 <= i <= n) lies at least one spacing from both canvas edges, and neighbouring slots are one spacing apart |
| Layout.SignerBlocksMembership | main.py:106-107 | a drawing call belongs to the signature blocks iff it belongs to the block of some complete signer at that signer's own slot; skipped signers draw nothing and move no one |
| Layout.SignerBlocksLength | main.py:106-144 | the signature blocks hold exactly four drawing calls per complete signer |
| Layout.DecodingOnlyChangesImage | main.py:108-132 | whether the signature image can be used decides only the first call: a paste at `(spacing*i - 100, sig_y)` or a placeholder line at `sig_y + 50`; the signature line and labels are identical either way |
| Layout.LabelsCentredOnSignatureLine | main.py:130-144 | the signature line runs from `spacing*i - 100` at `sig_y + 100`; name and post labels sit 20 and 60 below it, centred on it within the half pixel floor division drops |
| Layout.CreateCertificate | main.py:9-144 | the drawing calls of create_certificate equal the specification: main texts, then signature blocks |
| Layout.DrawMainText | main.py:28-99 | the step-by-step drawing of the main texts, with `x` and `y` reassigned, equals the block layout |
| Layout.DrawDetails | main.py:68-98 | the event, date and optional speaker lines drawn with `y` advanced 50 then 70 then 70 equal the specified detail block |
| Layout.DrawSignatures | main.py:101-144 | the signer loop draws exactly the specified blocks, slot `i` for the i-th configured signer |
| Layout.DrawSigner | main.py:106-144 | one pass of the signer loop draws the specified block: nothing for a signer missing a signature, name or post, else image or placeholder, signature line and both labels |
| Layout.DrawSignatureImage | main.py:108-128 | the try/except around one signature yields the specified paste or placeholder line, and in both branches leaves `x` at `spacing*i - 100` |
| Prizes.Pool | main.py:263-273 | a later category is offered exactly the roster names not already selected, and never more names than the roster has |
| Prizes.AssignPrizes | main.py:250-282 | after the three loops, a name maps to Third if selected for third, else Second, else First, and is absent if never selected (later categories overwrite earlier ones) |
| Prizes.OneRankPerWinner | main.py:253-280 | with selections taken from their pools, the categories are disjoint, each selected name maps to the rank it was selected for, and every assigned name is a roster name |
| Batch.RankSuffixes | main.py:331-332 | the rank suffixes are "_first", "_second" and "_third" |
| Batch.Filename | main.py:330-333 | a file name starts with the name with spaces replaced by `_`, then `_`, and ends with "_certificate.pdf"; its length is the sum of its parts |
| Batch.FilenameHasNoSpace | main.py:330-333 | a file name has no space when the certificate type has none |
| Batch.FilenameDistinguishesRank | main.py:330-333 | for one name and type, two file names are equal iff their ranks (or absence of rank) are equal |
| Batch.DistinctNamesCanCollide | main.py:330-335 | file names are not deduplicated: "A B" and "A_B" get the same file name |
| Batch.PlanRowAsWritten | main.py:304-312 | as written, an Excellence row is skipped when its stripped name is not a key of the assignments (the full rule is stated by `Batch.PlanRowAsWrittenCharacterised`) |
| Batch.PlanRowAsWrittenCharacterised | main.py:304-312 | the rule main.py runs: a row is drawn iff its name has a non-whitespace character and, under Excellence, its stripped name has a rank; it gets the stripped name, and under Excellence the rank stored under that name, otherwise no rank |
| Batch.PlanRow | main.py:304-312 | corrected: an Excellence row that was assigned a rank and whose name is not blank is drawn with the stripped name and that rank |
| Batch.PlanRowCharacterised | main.py:304-312 | a row is drawn iff its name has a non-whitespace character and, under Excellence, the row has a rank; it gets the stripped name, and under Excellence its rank, otherwise no rank |
| Batch.StrippedLookupSkipsWinner | main.py:251-312 | the roster value " Alice", selected for First prize, is skipped as written and drawn with First prize by the corrected lookup |
| Batch.LookupsAgreeOnTrimmedRow | main.py:304-312 | on a roster value without surrounding whitespace the as-written and corrected lookups plan the same |
| Batch.KeptRows | main.py:303-337 | the kept rows are strictly increasing roster indices, and a row is kept iff it is drawn and its drawing completes |
| Batch.Entries | main.py:303-337 | the archive holds exactly one entry per kept row, so never more entries than roster rows |
| Batch.EntriesFollowRoster | main.py:303-337 | the archive has one entry per kept row, in roster order; entry k is the certificate of the k-th kept row |
| Batch.EntriesCarryRank | main.py:308-335 | every entry carries a rank iff the type is Excellence, carries the batch's type, and is filed under the name built from its own name, type and rank |
| Batch.AwardedRowsGetCertificates | main.py:308-335 | every Excellence row that was assigned a rank, has a non-blank name and renders gets an entry with that rank: always with the corrected lookup, and with the lookup as written when the roster value has no surrounding whitespace |
| Batch.RunBatch | main.py:292-295 | the batch is refused iff some configured signer has no signature, so an empty signer list always passes; otherwise it has at most one entry per row, and none for an empty roster |
| Batch.BuildFilename | main.py:330-333 | the file name built piece by piece, with the rank part appended only when a rank is set, equals the specified archive name |
| Batch.GenerateCertificates | main.py:292-339 | the generation loop returns exactly the specified result for the job's lookup rule: refusal, or the entries in roster order; with `AsWritten` it looks the rank up under the stripped name as main.py:310 does |
| Batch.SecondOfThreeFails | main.py:317-337 | three Participation rows whose second drawing fails give two entries, for the first and the third recipient |
| Batch.LookupsAgreeOnTrimmedRoster | main.py:303-337 | when no roster value has surrounding whitespace, the batch as written and the corrected batch give the same result |
| Batch.StrippedLookupEmptiesBatch | main.py:251-337 | the roster `[" Alice"]` with " Alice" selected for First prize gives an empty archive as written and one entry, "Alice" with First prize, with the corrected lookup |

## Left out

- Streamlit widgets, session state, status texts, the progress bar and the download
  button (main.py:157-226, 299-300, 314, 339, 344-349): UI. Rows skipped by
  `continue` never advance the progress bar.
- The multiselect defaults taken from the previous session state (main.py:257,
  267, 277): UI state. The selections are inputs of `Prizes.AssignPrizes`.
- Reading the CSV or XLSX roster with pandas (main.py:228-238): foreign I/O. The
  roster is a sequence of strings. `str()` of non-string cells is not modelled.
- PIL internals are foreign calls. This covers font loading, `textbbox`, the
  drawing itself, `paste`, `alpha_composite`, the RGBA and RGB conversions, LANCZOS
  resampling and the 300-dpi PDF encoding (main.py:10-26, 110-112, 118, 124,
  147-153). Measurement is `Measure`. Opening a signature is `Decoder`. The colour
  of every text and line is black and is not recorded.
- Whether drawing and saving a certificate raises (the catch-alls at main.py:125
  and 336): modelled as the outcome oracles `Decoder` and `renders`, not as
  exceptions. The error message shown for a failed row is UI.
- Loading the template and the catch-all around the roster (main.py:160-164,
  351-352): resource errors outside the core.
- `event_date.strftime('%B %d, %Y')` (main.py:75) and the archive timestamp
  (main.py:342): library formatting and a clock read. The formatted date is an
  input.
- Writing the zip archive (main.py:297-298, 335): modelled as appending entries
  to a sequence.
- Layout.ResizedHeight: computes `(200*h) // w` exactly. The source computes
  `int((200 / w) * h)` in floating point, which can be one pixel lower when the
  product lands just below a whole number.
- Strings.Lower: maps only the ASCII capitals. Python's `str.lower` also maps
  non-ASCII letters. The certificate types and ranks that reach it are ASCII.
- Pasting a resized signature (`Layout.Pastes`) is assumed to succeed once the
  image opens, has non-zero width and resizes to a height of at least one pixel.

## Findings

| source | as written | input that shows it | evidently intended | confidence | as-written member | corrected member |
|---|---|---|---|---|---|---|
| main.py:304-312 | the prize assignments are keyed by the roster values offered in the multiselects (main.py:251, 259-280). The loop looks the rank up under the stripped name | a roster value " Alice" selected for First prize under Excellence: the lookup of "Alice" finds nothing and the row is silently skipped (`Batch.StrippedLookupSkipsWinner`); the whole batch on that roster gives an empty archive (`Batch.StrippedLookupEmptiesBatch`) | a selected winner gets a certificate: look the rank up under the same value that was selected, and print the stripped name (`Batch.AwardedRowsGetCertificates`) | medium, not executed | Batch.PlanRowAsWritten | Batch.PlanRow |
