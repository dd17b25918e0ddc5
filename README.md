# Chart search index — a verified model

This project models the search core of a chart-repository client. The core has four parts.

- **Index.** An in-memory entry table. `AddRepo` loads the charts of one repository's index file into it: one entry per chart, or one per version in include-all mode. `All` lists the stored entries.
- **Search.** `Search` matches a query against every entry. A literal query matches case-insensitively. It may be scoped as `repository/term`, and matches are tiered: exact chart name, then name substring, then description substring. With `regexp`, the query is compiled as a pattern first; a pattern that does not compile gives an error and no results.
- **Results.** A `Result` carries a fully qualified name `repository/chart`, a score (lower is better) and the chart version it refers to.
- **Ranking.** `SortScore` reorders results in place: ascending score, then ascending name, then descending semantic version.

The only file of the repository available here is its test file `helm_enhance.go`. The implementation modelled is therefore the one those tests imply. Every test of that file is restated as a method or lemma about the model: `TestSortScore`, `TestRepoEntries`, `TestSortRepoEntries`, `TestSearchByName` (one method per case) and `TestSearchByNameAll`. Each is proved to give what the test expects, apart from the two exceptions under "## Findings" and "## Left out".

Layout, one module per file:
- `options.dfy` (`Option`) and `text.dfy` (ASCII lower-casing, prefix and substring tests, splitting, Go's string order).
- `semver.dfy`: versions `MAJOR.MINOR.PATCH[-PRE]` and a total order on version strings.
- `charts.dfy`: chart versions, entry keys and results.
- `table.dfy`: the entry table as a value, what a load contributes.
- `matching.dfy`: query parsing and ranking one entry.
- `index.dfy`: the `Index` class with `AddRepo`, `All` and `Search`.
- `ranking.dfy`: the order, and `SortScore` as an in-place insertion sort on an array.
- `fixtures.dfy`: the test repositories and per-entry ranking facts.
- `expectations.dfy`: the tests.
- `mixed_case.dfy`: the mixed-case finding.

SortScore's second key is the name. A stable sort on score, then descending version, then insertion order would put `bbb` (version 1.2.3) before `aab` (no chart) at equal score. The tests need `aab` first, so the model sorts by ascending name before descending version.

The regular-expression compiler is a parameter of `Search` (`compile: string -> Compiled`). Only the pattern's failure and its verdicts are observable. The tests use `Fixtures.TestCompile`, which stands in for Go's compiler on the two patterns the tests use: "th[" fails, and "Th[ref]*" finds "Th".

## Model

| member | source | states |
|---|---|---|
| Text.Lower | helm_enhance.go:215-221 | Lower-casing keeps the length; `Text.LowerChars` states it character by character |
| Text.Contains | helm_enhance.go:184-190 | A term found in a string is no longer than the string, and the empty term is found in every string; `Text.ContainsIffOccurs` characterises it fully |
| Text.StrLess | helm_enhance.go:45-49 | No string sorts below itself, and a proper prefix sorts below the longer string, as Go's `<` on strings does |
| Text.LowerChars | helm_enhance.go:139 | Lower-casing maps each upper-case ASCII letter 32 code points up, keeps every other character and leaves no upper-case letter |
| Text.LowerIdempotent | helm_enhance.go:216 | Lower-casing twice is lower-casing once |
| Text.ContainsIffOccurs | helm_enhance.go:186 | The substring test holds exactly when some slice of the string equals the term |
| Text.SplitFirst | helm_enhance.go:179 | Splitting at the first separator gives a part free of it and a rest that, rejoined around the separator, rebuild the input; None exactly when the separator is absent |
| Text.SplitAtFirst | helm_enhance.go:179 | Splitting `x + [c] + y` with `c` not in `x` gives back `(x, y)` |
| Text.StrLessTransitive | helm_enhance.go:45-49 | Go's string order on names is transitive |
| Text.StrLessTotal | helm_enhance.go:45-49 | Any two distinct names are ordered one way or the other |
| SemVer.Parse | helm_enhance.go:16-18 | A string without '.' is malformed; a well-formed version carries a pre-release tag exactly when the string holds '-' |
| SemVer.VersionLess | helm_enhance.go:52-57 | No string sorts below itself; every malformed string sorts below every well-formed one and never above it; between well-formed strings the one of lower precedence sorts below |
| SemVer.ParseFormat | helm_enhance.go:16-18 | Parsing the canonical text of any version gives that version back |
| SemVer.DecimalRoundTrip | helm_enhance.go:16-18 | The decimal numeral of a number denotes that number |
| SemVer.VersionLessIrreflexive | helm_enhance.go:52-57 | No version string sorts below itself |
| SemVer.VersionLessTransitive | helm_enhance.go:52-57 | The order on version strings is transitive, malformed strings included |
| SemVer.VersionLessTotal | helm_enhance.go:52-57 | Any two distinct version strings are ordered one way or the other, so the order is total and deterministic |
| SemVer.VersionLessNegTransitive | helm_enhance.go:52-57 | "Does not sort below" is transitive |
| SemVer.ReleaseAbovePreRelease | helm_enhance.go:17-18 | 1.2.2-RC-1 sorts below 1.2.3 |
| SemVer.PatchOrder | helm_enhance.go:31-32 | 1.2.3 sorts below 1.2.4: patch numbers compare numerically |
| Table.Latest | helm_enhance.go:82-98 | The version kept in the default mode is one of the chart's versions |
| Table.LatestIsHighest | helm_enhance.go:82-98 | No version of the chart sorts above the one kept in the default mode |
| Table.VersionEntries | helm_enhance.go:107-117 | Include-all entries of a chart are keyed by repository, chart and version string, each holds a listed version with that string, and every listed version has one |
| Table.PackageEntries | helm_enhance.go:104-117 | Every entry one chart contributes is keyed by the loaded repository and that chart's name |
| Table.PackageEntriesValues | helm_enhance.go:104-117 | A chart contributes nothing exactly when it lists no versions; each entry it contributes holds one of its listed versions and carries a version string exactly in include-all mode |
| Table.RepoEntries | helm_enhance.go:104-117 | Every entry a repository's index file contributes is keyed by that repository and by a chart the file lists |
| Table.WithRepo | helm_enhance.go:104-117 | After a load, every entry of every other repository is still there with its value, and every entry of the loaded repository names a chart of its index file |
| Table.RepoEntriesStep | helm_enhance.go:61-100 | Loading one more chart of an index file adds exactly that chart's entries |
| Table.RepoEntriesCount | helm_enhance.go:121-134 | A repository contributes one entry per chart, or one per version in include-all mode |
| Table.WithRepoKeepsOthers | helm_enhance.go:104-117 | Loading a repository leaves every entry of every other repository as it was, so the same chart name in two repositories gives two entries |
| Table.WithRepoReplaces | helm_enhance.go:104-105 | Loading a repository again replaces what the earlier load contributed |
| Table.WithRepoStoresLatest | helm_enhance.go:82-98 | In the default mode every non-empty chart has exactly one entry, keyed without a version string and holding a version no other version of the chart sorts above |
| Table.DefaultKeysUnversioned | helm_enhance.go:82-98 | In the default mode no entry of the loaded repository carries a version string |
| Table.WithRepoStoresEveryVersion | helm_enhance.go:131 | In include-all mode every version of every chart has its own entry |
| Matching.TermRank | helm_enhance.go:162-205 | A term equal to the chart name gets the exact score; otherwise the term matches exactly when it is a substring of the name or of the description, with the description score exactly when only the description holds it; every match has the exact, name or description score |
| Matching.LiteralRank | helm_enhance.go:162-226 | A scoped query never matches an entry of another repository, the repository compared without case; the exact score goes exactly to entries whose lower-cased chart name is the term (in the scoped repository, for a scoped query); every match has the exact, name or description score |
| Matching.PatternRank | helm_enhance.go:227-232 | A pattern matches an entry exactly when it matches the full name or the description, always with the pattern score |
| Matching.ParseQuery | helm_enhance.go:179 | A query is scoped exactly when it holds '/'; the scope and the term, rejoined by '/', give the lower-cased query |
| Matching.ScopedQuery | helm_enhance.go:179 | A query lower-casing to `repo/term`, with no '/' in `repo`, is scoped to `repo` with term `term` |
| Matching.QueryIgnoresCase | helm_enhance.go:215-221 | A query means the same in any letter case |
| Matching.PlainMatchIsSubstring | helm_enhance.go:185-197 | A bare term matches exactly when it is a substring of the lower-cased full name or the lower-cased description |
| Matching.ScopedMatchIsRepoAndSubstring | helm_enhance.go:178-183 | A scoped query matches exactly the entries of that repository whose chart name or description holds the term |
| Matching.ExactNameRanksBest | helm_enhance.go:163-167 | An exact chart-name match gets the best score, which no other match of the query beats |
| Matching.NameBeatsDescription | helm_enhance.go:185-197 | A name match scores strictly better than a description-only match |
| Matching.HitsStep | helm_enhance.go:247 | Ranking one more entry adds it, and its result, to the hits exactly when it matches |
| Search.ErrorText | helm_enhance.go:233-240 | The message of a pattern syntax error starts with "error parsing regexp:" |
| Search.AddChart | helm_enhance.go:104-117 | Storing one chart adds exactly what that chart contributes to the table, highest version or every version |
| Search.Index.constructor | helm_enhance.go:104 | A new index is empty |
| Search.Index.AddRepo | helm_enhance.go:104-117 | The new table is the old one with the repository's entries replaced by what its index file contributes |
| Search.Index.All | helm_enhance.go:121-134 | Lists every stored entry, one result each and nothing else |
| Search.Index.Collect | helm_enhance.go:247 | Lists exactly the matching entries, one result each |
| Search.Index.Search | helm_enhance.go:243-254 | A literal search lists exactly the entries matching the query; a compiled pattern lists exactly the entries it matches; a pattern that fails gives its error and no results |
| Ranking.ScoreLess | helm_enhance.go:24-57 | Of two results with different scores the lower goes first; at equal scores and different names, Go's string order on the names decides; a result never goes before one that ties with it on score, name and version |
| Ranking.ScoreLessIsStrictWeakOrder | helm_enhance.go:24-36 | SortScore's order (score, then name, then descending version) is a strict weak order |
| Ranking.ScoreLessTotal | helm_enhance.go:24-36 | Two results either agree on score, name and version or one goes first |
| Ranking.SortedOrder | helm_enhance.go:38-57 | In a sorted list scores never decrease, names ascend under one score, and versions descend under one score and name |
| Ranking.SortedUnique | helm_enhance.go:26-34 | Two sorted permutations of tie-free results are equal: the output does not depend on the input order |
| Ranking.ChainSorted | helm_enhance.go:33-49 | A list in which each result goes before the next is sorted and tie-free |
| Ranking.Insert | helm_enhance.go:36 | Moving one element into a sorted prefix by adjacent swaps extends the sorted prefix and only permutes |
| Ranking.InsertedSorted | helm_enhance.go:36 | The state Insert stops in is sorted |
| Ranking.SortBy | helm_enhance.go:36 | The array ends sorted and holds the same elements |
| Ranking.SortScore | helm_enhance.go:36 | Results are reordered in place into sorted order, every result kept unchanged |
| Fixtures.LatestSantaMaria | helm_enhance.go:82-98 | The default mode keeps santa-maria 1.2.3 over 1.2.2-RC-1 |
| Fixtures.DefaultTableLoaded | helm_enhance.go:60-119 | Loading testing and then ztesting in the default mode gives the four entries written out |
| Fixtures.AllTableLoaded | helm_enhance.go:60-119 | Loading both in include-all mode gives the five entries written out |
| Fixtures.LoadTestIndex | helm_enhance.go:103-119 | The index the tests search holds that table |
| Fixtures.TableSizes | helm_enhance.go:121-134 | The default table has 4 entries, the include-all table 5 |
| Fixtures.AllRanksFollowDefault | helm_enhance.go:269-300 | Under any search, every include-all entry ranks like the default-mode entry of its chart |
| Fixtures.SantaMariaRanks | helm_enhance.go:163-167 | "santa-maria" matches only santa-maria, exactly |
| Fixtures.PintaRanks | helm_enhance.go:170-176 | "pinta" matches both pinta charts exactly, nothing else |
| Fixtures.ZTestingPintaRanks | helm_enhance.go:178-183 | "ztesting/pinta" matches only the ztesting pinta |
| Fixtures.SantaRanks | helm_enhance.go:185-190 | "santa" matches only santa-maria, in its name |
| Fixtures.ThreeRanks | helm_enhance.go:192-197 | "Three" matches only santa-maria, in its description |
| Fixtures.TwoRanks | helm_enhance.go:199-205 | "two" matches both pinta charts in their descriptions |
| Fixtures.UpperTwoRanks | helm_enhance.go:215-221 | "TWO" ranks every entry as "two" does |
| Fixtures.MayflowerRanks | helm_enhance.go:223-226 | "mayflower" matches nothing |
| Fixtures.TestingSantaMariaRanks | helm_enhance.go:139 | "TESTING/SANTA-MARIA" matches only santa-maria, exactly |
| Fixtures.ThRefRanks | helm_enhance.go:228-231 | The pattern "Th[ref]*" matches only santa-maria |
| Expectations.EnumeratesPermuted | helm_enhance.go:143 | Reordering a search's results keeps them a listing of the same matches |
| Expectations.EnumeratesTwo | helm_enhance.go:259-263 | A sorted listing of two matches, one ranked before the other, is the two in that order |
| Expectations.SearchSorted | helm_enhance.go:243-266 | Search followed by SortScore: sorted results listing exactly the matches, or the pattern's error |
| Expectations.SortedList | helm_enhance.go:36 | SortScore applied to a list gives a sorted permutation of it |
| Expectations.SortScorePermutation | helm_enhance.go:25-33 | The expected output holds exactly the seven input results |
| Expectations.SortScoreOnlyOrder | helm_enhance.go:24-57 | Any sorted permutation of the seven results is the expected output |
| Expectations.TestSortScore | helm_enhance.go:24-57 | Names aab, bbb, aaa, abb, bab, ver, ver; scores 0, 0, 5, 5, 5, 5, 5; the two ver results at 1.2.4, then 1.2.3 |
| Expectations.TestRepoEntries | helm_enhance.go:121-134 | All lists 4 entries in the default mode and 5 in include-all mode |
| Expectations.ListsReleaseFirst | helm_enhance.go:143-149 | A sorted include-all listing of both santa-maria versions has 1.2.3 first and 1.2.2-RC-1 second |
| Expectations.TestSortRepoEntries | helm_enhance.go:136-150 | Searching "TESTING/SANTA-MARIA" in include-all mode and sorting puts version 1.2.3 first |
| Expectations.SearchOneResult | helm_enhance.go:162-168 | "santa-maria" lists testing/santa-maria only |
| Expectations.SearchTwoResults | helm_enhance.go:169-176 | Search followed by SortScore: "pinta" lists testing/pinta, then ztesting/pinta |
| Expectations.SearchRepoScoped | helm_enhance.go:177-183 | "ztesting/pinta" lists ztesting/pinta only |
| Expectations.SearchPartialName | helm_enhance.go:184-190 | "santa" lists testing/santa-maria only |
| Expectations.SearchDescriptionOne | helm_enhance.go:191-197 | "Three" lists testing/santa-maria only |
| Expectations.SearchDescriptionTwo | helm_enhance.go:198-205 | Search followed by SortScore: "two" lists testing/pinta, then ztesting/pinta |
| Expectations.SearchDescriptionUpper | helm_enhance.go:214-221 | Search followed by SortScore: "TWO" lists testing/pinta, then ztesting/pinta |
| Expectations.SearchNothingFound | helm_enhance.go:222-226 | "mayflower" lists nothing |
| Expectations.SearchRegexpOne | helm_enhance.go:227-232 | The pattern "Th[ref]*" lists testing/santa-maria only |
| Expectations.SearchRegexpFailCompile | helm_enhance.go:233-240 | The pattern "th[" fails with a message containing "error parsing regexp:" |
| Expectations.SearchCount | helm_enhance.go:289-297 | The number of results of a search is the number of matching entries, or -1 for a pattern error |
| Expectations.AllSantasFromDefault | helm_enhance.go:277 | In include-all mode a search matching santa-maria finds both its versions |
| Expectations.AllPintasFromDefault | helm_enhance.go:278 | In include-all mode a search matching pinta finds one entry per repository |
| Expectations.AllNoneFromDefault | helm_enhance.go:284 | In include-all mode a search matching nothing in the default mode finds nothing |
| Expectations.TestSearchByNameAll | helm_enhance.go:269-300 | Result counts 2, 2, 2, 2, 2, 2, 2, 0, 2 for the nine include-all searches |
| MixedCase.NoMixedCaseName | helm_enhance.go:174 | No search of the fixture index, by any ranking, yields a result named ztesting/Pinta |
| MixedCase.SearchMixedCaseAsWritten | helm_enhance.go:206-213 | As loaded, "pinta" lists ztesting/pinta, which is not the expected ztesting/Pinta |
| MixedCase.MixedTableLoaded | helm_enhance.go:103-117 | Loading testing and the corrected ztesting gives the four entries written out, the ztesting chart keyed "Pinta" |
| MixedCase.LoadMixedIndex | helm_enhance.go:103-117 | The corrected index holds that table |
| MixedCase.SearchMixedCase | helm_enhance.go:206-213 | Corrected, Search followed by SortScore: "pinta" lists testing/pinta, then ztesting/Pinta |
| MixedCase.SearchMixedScoped | helm_enhance.go:177-183 | Corrected: "ztesting/pinta" lists ztesting/Pinta only |
| MixedCase.SearchMixedDescription | helm_enhance.go:198-205 | Corrected, Search followed by SortScore: "two" lists testing/pinta, then ztesting/Pinta |
| MixedCase.SearchMixedUpper | helm_enhance.go:214-221 | Corrected, Search followed by SortScore: "TWO" lists testing/pinta, then ztesting/Pinta |

## Left out

- The second argument of `Search` (100 in every call) is not modelled. The tests give it no observable meaning, so it is neither a limit nor a threshold here.
- Go's regular-expression package is not part of this model. The compiler is a parameter of `Search`. The tests' stand-in decides only the two patterns they use, and its error text has the shape "error parsing regexp: <code>: `<expr>`".
- Semantic versions cover only `MAJOR.MINOR.PATCH[-PRE]`. Pre-release tags compare as whole strings in Go's string order, not dot-separated identifier by identifier, and build metadata is not modelled.
- Case folding is ASCII only. "ni√±a" is an opaque string.
- Chart URLs are carried but never read. Nothing the tests assert depends on them.
- The order in which `Search` returns its results is not shown by the available file. `Search`'s contract promises only which results it lists. The tests compare the order of `Search`'s output directly (helm_enhance.go:260-263), so the model proves each expected order of the results after SortScore (`Expectations.SearchSorted`). The six members below are therefore weaker than the tests they restate.
- Expectations.SearchTwoResults: the order testing/pinta, then ztesting/pinta, is proved only after SortScore.
- Expectations.SearchDescriptionTwo: the order of the two pintas is proved only after SortScore.
- Expectations.SearchDescriptionUpper: the order of the two pintas is proved only after SortScore.
- MixedCase.SearchMixedCase: the order testing/pinta, then ztesting/Pinta, is proved only after SortScore.
- MixedCase.SearchMixedDescription: the order of the two pintas is proved only after SortScore.
- MixedCase.SearchMixedUpper: the order of the two pintas is proved only after SortScore.
- Expectations.TestSearchByNameAll: proves 2 results where the test expects 1 for "santa-maria", "santa", "Three" and "Th[ref]*". Both santa-maria versions are separate include-all entries and both match. The 1 would need results merged per full name, and nothing in the available file says they are. TestSortRepoEntries (helm_enhance.go:136-150) sorts the include-all hits of santa-maria by version before taking the first, which suggests both versions are listed. A search that merged the versions and kept the highest would satisfy that test too, so the file does not settle the question.
- Which version the default mode keeps: the model keeps the highest. The fixture lists the highest first, so "first listed" would satisfy the tests too.
- A pattern is matched against the full name and the description as stored. A pattern query is never scoped by repository.
- The numeric scores (exact name 0, name substring 1, description only 2, pattern 0) are the model's choice. Only their order follows from the tests.
- `Expectations.SearchTwoResults` also stands for "search mixedCase and result should be mixedCase too": that case runs the same query, "pinta".
- Any literal query holding '/' is scoped: the part before the first '/' must equal the repository, without case, and the rest is looked for in the chart name and description only. A substring of the full name that spans the '/' therefore finds nothing: "ing/pinta" does not match testing/pinta, though it occurs in that name.
- A result without a chart ranks with version "", a malformed version. Among results of equal score and name, it therefore sorts after every result whose version is well formed. The tests give chart-less results unique names only (helm_enhance.go:27-30), so nothing they assert depends on this choice.
- Ranking.SortScore: the contract does not state stability. It promises a sorted permutation, which fixes the order of any results that differ on score, name or version. Insertion that swaps only on a strictly smaller neighbour keeps tied results in their input order, but no contract says so. Results that tie on all three keys do not occur in the tests.
- The `testing` harness (`t.Run`, `t.Errorf`, `t.Fatal`) is not modelled.

## Findings

| source | as written | input that shows it | evidently intended | confidence | as-written member | corrected member |
|---|---|---|---|---|---|---|
| helm_enhance.go:104-117 | The ztesting index file lists its chart as `chartPinta`, "pinta". Yet five cases (lines 174, 181, 203, 211, 219) expect the result name "ztesting/Pinta". | The query "pinta" on the default-mode index lists "ztesting/pinta". | The ztesting chart listed as "Pinta", which is what the case "search mixedCase and result should be mixedCase too" checks: the listed case comes back unchanged. | not executed | MixedCase.SearchMixedCaseAsWritten | MixedCase.SearchMixedCase |
