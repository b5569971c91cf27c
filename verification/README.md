# Verified models of CWEAVE, CTANGLE and the ASPU routing protocol

This project models, in Dafny, the parts of three programs in which most of their difficulty lies, and
proves what those parts are for.

* **CWEAVE's formatter** (`Scraps`, `Productions`, `Translate`, `Meaning`, `Conservation`, `Steps`, `Runs`,
  `Inserts`, `Losses`, `Grammar`, `Naming`, `Reserving`, `Formatter`). The productions are a table from a window of four categories to what
  is written and how the cursor moves. A run over a scrap sequence is a transition system; `Formatter` is the
  program itself, with token memory, text directory and scrap array updated in place around the gap, proved
  to compute that run. The theorems hold for every table that meets `SoundTable`; `Productions.Cweave` proves
  that CWEAVE's own 111 numbered productions do, and `Grammar` compares that table with the one printed in
  `project/cweb/prod.w`, rule by rule. `Weaving` is the stack machine that puts texts out, token by token, through
  their references, and `Paths` says by which references each token is reached. The **index sort** (`LinkedLists`, `IndexOrder`, `IndexPiles`, `IndexSort`)
  keeps its linked lists, buckets and stack in arrays; so do the **cross-reference lists** of section names and
  their footnotes (`CrossRefs`).
* **CTANGLE and what it shares with CWEAVE**: section names found by abbreviation (`Strings`, `SectionNames`,
  `NameTree`, `NameLookup`), change files (`ChangeFiles`, `Patches`, `ChangeReader`), the byte code of
  replacement texts (`Codes`, `Items`, `TokenStore`), their chains (`TextChains`), their expansion by a
  stack machine (`Expansion`, `Tangler`), what that puts out of the items scanned (`Listing`), and all of this
  together, from the items scanned to the program put out (`Scanning`).
* **The ASPU dynamic-address routing protocol** (`Bits`, `Routing`, `RoutingTables`, `Allocation`, `Learning`,
  `Network`, `Routes`): route logs, tables and adverts, choice of next hops and addresses, and a network of nodes whose
  adverts may be lost, repeated, delayed or reordered at will.

State that the programs change in place is held in classes (`TokenMemory`, `Translator`, `Weaver`,
`IndexSorter`, `CrossReferences`, `SectionTree`, `Store`, `ReplacementTexts`, `Tangle`, `Expander`, `Input`,
`RoutingTable`, `Ndp`); every method states its new state as a function of the old one, and the theorems are
about those functions.

`dafny verify dfyconfig.toml` checks the project.

## Findings

* **A comment next to a `<` or `>` can be lost.** Productions 0 and 83 glue an insert (a comment) to a
  neighboring `<` or `>` scrap; productions 84 and 85 then replace the whole text of that scrap by a bare
  `<` or `>` (`project/cweb/cweave.c:2786-2791`), so the comment disappears from the woven program.
  `Losses.CommentAfterLessIsLost` runs such an input, `a</*..*/b`, to the end: a text is returned and keeps
  fewer leaves than there were scraps. `Runs.TranslationCorrect` says that this is the only way to lose
  anything: leaves are as many as scraps if and only if no step of the run replaces an angle scrap that holds
  more than its own leaf. `Inserts.TranslationInOrder` gives what can be told beforehand: every scrap
  is kept, in its place, if no insert and no preprocessor line stands directly after a `<` or `>`, and, in a text
  that begins with one, none directly before either; or if there is no `<` or `>` at all. Elsewhere an insert
  before a `<` does no harm, since it goes to the scrap before it.
* **An empty scrap takes the reservation of an identifier.** A section name comes with a second, empty scrap of
  category exp (`project/cweb/cweave.c:3013-3016`). `make_reserved` looks at the first token of a scrap's text
  (`project/cweb/cweave.c:2077-2083`), and what stands first at the place of an empty text is the next text's first
  token. If that is the name to be reserved, the empty scrap becomes a raw_int, and the identifier's own scrap
  stays an exp because its token is reserved by then (`Reserving.EmptyScrapTakesIt`). `Reserving.ReservesExactly`
  is the exact condition: of the scraps whose texts begin at one place, only the first is recategorised. All are
  if no two texts begin at one place (`Reserving.AllReserved`).
* **The printed productions differ from the program in eight places** (`Grammar.FirstRuleFires`). Rule 8 leaves out
  the class that stays, 45 the semicolon and 108 the parenthesis; 43 leaves the semicolon out of the text; 61 ends
  with a line break (`project/cweb/cweave.c:2679-2682`), not with an optional one; 79 and 80 mark what they insert;
  and 99 waits while 97 does. Rule 26 shows an int_like for the raw_int that stays. On every other window the program
  does what the first printed rule that applies says. One thing the print leaves open, and the model takes from the
  program: the end of a macro argument is not joined to a semicolon or to a raw_int, raw_unorbin, raw_rpar or
  const_like, which are reduced first.
* **A capital control code never matches inside a change-file block.** `check_change` lowers the letter after
  `@` in the change file's line but not in the web's (`project/cweb/common.c:461-491`), so a web line starting
  with, say, `@D` does not match its own copy unless it is the first of its block
  (`Patches.CapitalNeverMatches`). `Patches.NoComplaints` is the exact condition under which a patch applies
  without complaint.
* **Slips of the ASPU sources**, modeled by their evident intent: a brace is missing at
  `aspu_rtable.cc:262-271`; `addEntry` is called with different numbers of arguments at `aspu_rtable.cc:150`
  and `aspu_rtable.cc:182`; `getUpdate` writes five fields where `NeighborTable::update` reads four;
  `RoutingTable::clear` erases from a set while iterating over it.

## Model

| member | source | states |
|---|---|---|
| `Runs.TranslationCorrect` | project/cweb/cweave.c:2244-2979 | Whatever productions fire, the returned text reads, as TeX, from outside math to outside math with every leaf met in its own mode; its leaves stand for the input scraps block by block and in order; they are as many as the scraps exactly if no step of the run dropped an insert with a `<` or `>`. |
| `Inserts.TranslationInOrder` | project/cweb/cweave.c:2244-2979 | If no insert or preprocessor line comes directly after a `<` or `>` (nor directly before, in a text that begins with one), or there are no `<` and `>`, the returned text keeps every scrap once and in its place, each by its own text or, a `<` or `>`, by the character replacing it. |
| `Inserts.LosslessUnmixed` | project/cweb/cweave.c:2294-2303 | For such inputs no step of the whole run loses a leaf, for any sound table. |
| `Inserts.MildFair` | project/cweb/cweave.c:2294-2303 | No production glues an insert to a `<` or `>` in a state that came of such an input: the cursor comes to no insert but the very first scrap. |
| `Losses.CommentAfterLessIsLost` | project/cweb/cweave.c:2294-2303 | CWEAVE's own table loses a leaf on a comment after a `<`, whatever the texts are, and still returns a text. |
| `Runs.StepSmaller` | project/cweb/cweave.c:2254-2947 | Every turn of the main loop lowers (number of scraps, total rank of categories, distance to the end), so every run ends, although the cursor moves back and `make_reserved` raises ranks. |
| `Runs.RunConserves` | project/cweb/cweave.c:2254-2947 | A whole run that does not overflow leaves scraps that are good and cover the input; none is lost exactly if the run is lossless. |
| `Steps.StepGood` | project/cweb/cweave.c:2003-2239 | One step keeps every scrap's text balanced between its two math modes, texts referring only to earlier ones, and accounts for every leaf. |
| `Steps.PenGood` | project/cweb/cweave.c:2003-2038 | What an ordinary production composes is balanced, and keeps just the leaves of the scraps it replaces, in order. |
| `Conservation.MakeReservedOk` | project/cweb/cweave.c:2068-2087 | `make_reserved` changes no leaf and no text's reading: only flags of names and categories exp to raw_int. |
| `Productions.Cweave` | project/cweb/cweave.c:2293-2947 | CWEAVE's table is sound: on every window the production that fires takes existing scraps once and in order, lowers the rank if it replaces a single scrap, and writes no `$`, `<` or `>` of its own but in 84 and 85. |
| `Productions.Fires` | project/cweb/cweave.c:2293-2947 | The same for the production chosen on one window, tried in CWEAVE's order. |
| `Runs.TranslationModes` | project/cweb/cweave.c:2003-2038 | In the text `translate` returns every line break, backup and cancel code comes outside math, every brace and relation inside, and every leaf in its own mode. |
| `Runs.ClosingSpaced` | project/cweb/cweave.c:2951-2977 | Dollars apart, the final scraps stand in a row with exactly one space between each and the next. |
| `Meaning.ReadMeans` | project/cweb/cweave.c:2003-2038 | A text reads from one mode to another exactly if every mark and every leaf in it comes in the mode where it belongs. |
| `Conservation.BigTokMeans` | project/cweb/cweave.c:2003-2020 | Spaces, cancels, indents, optional and other breaks are written outside math, everything else inside; `{}$` or `${}` comes before them exactly where that changes the mode. |
| `Grammar.FirstRuleFires` | project/cweb/prod.w:49-267 | On every window the program fires the first printed rule that applies, with the category, the scraps, the text and the reservation printed for it, and nothing if none applies; the misprints are exactly the eight listed, corrected as listed. |
| `Naming.FirstIdentIsFirst` | project/cweb/cweave.c:2043-2063 | The identifier found is the first in reading order, over all paths of references, of those with nothing marked as inserted before them in their texts; none is found exactly if there is none. |
| `Reserving.ReservesExactly` | project/cweb/cweave.c:2068-2087 | From the scrap given on, exactly the first exp at each place where the name begins a text becomes a raw_int, exactly the tokens there become reserved, and everything else stays. |
| `Reserving.NameReserved` | project/cweb/cweave.c:2068-2087 | Afterwards no exp from that scrap on, on either side of the gap, begins with the identifier; each that did begins with the reserved word. A scrap that changes becomes a raw_int. |
| `Reserving.AllReserved` | project/cweb/cweave.c:2068-2087 | If no two texts begin at one place every exp that began with the identifier is a raw_int. |
| `Reserving.LeftOut` | project/cweb/cweave.c:2077-2083 | An exp whose text begins where that of an earlier one does is left as it was. |
| `Reserving.EmptyScrapTakesIt` | project/cweb/cweave.c:3013-3016 | A concrete input on which an empty scrap is reserved and the identifier is not. |
| `Scraps.PackRoundTrip` | project/cweb/cweave.c:2003-2038 | The flag arithmetic of tokens is lossless and fits sixteen bits. |
| `Formatter.Translator.TranslateScraps` | project/cweb/cweave.c:2244-2979 | The program with its gap buffer and in-place memory returns exactly the text, and leaves exactly the memory, of the transition system's run, and gives up exactly where that overflows. |
| `Formatter.Translator.Turn` | project/cweb/cweave.c:2254-2947 | A turn of the loop in place is a step of the transition system, from every good state. |
| `Formatter.Translator.FillWindow` | project/cweb/cweave.c:2254-2276 | Moving scraps across the gap fills the window, padded with zero categories, and loses none. |
| `Formatter.Translator.Collapse` | project/cweb/cweave.c:2143-2166 | Replacing k scraps by one and closing the hole in the array replaces just these in the sequence. |
| `Formatter.Translator.MakeReserved` | project/cweb/cweave.c:2068-2087 | The loop over both sides of the gap computes `make_reserved` of the state. |
| `Formatter.Translator.Fire` | project/cweb/cweave.c:2293-2947 | Firing a production in place has its effect on the state, or runs out of memory just where that does. |
| `Formatter.Translator.Close` | project/cweb/cweave.c:2951-2977 | The final scraps are joined, each wrapped in `$` where it is in math mode, with an overflow check after each. |
| `Formatter.TokenMemory.BigApp` | project/cweb/cweave.c:2003-2020 | Appending a token enters the mode it calls for, with `$` where the mode changes. |
| `Formatter.TokenMemory.BigApp1` | project/cweb/cweave.c:2022-2038 | Appending a scrap enters its first mode and ends in its last. |
| `Formatter.TokenMemory.FindFirstIdent` | project/cweb/cweave.c:2043-2063 | The recursive search finds the place in memory of the first identifier of a text, or that there is none. |
| `Weaving.Weaver.MakeOutput` | project/cweb/cweave.c:3363-3382 | The walk through the text just completed puts out exactly the recursive unfolding of its references, each token with the mode it is in, and overflows exactly if references nest deeper than the stack has room for. Put out to the end, there is one item for every path of references, in the order of the paths: the token it leads to, inner exactly if the walk began inner or some reference on the path is. |
| `Weaving.UnfoldAlong` | project/cweb/cweave.c:3318-3337 | The unfolding of a text has one item for every path of references, in order, each with the token the path leads to and the mode the path gives. |
| `Paths.PathsLead` | project/cweb/cweave.c:3289-3337 | The paths listed are exactly those that lead from the text to a token that is no reference. |
| `Paths.PathsInOrder` | project/cweb/cweave.c:3289-3337 | They are listed once each, in the order in which the tokens are read. |
| `Weaving.Weaver.GetOutput` | project/cweb/cweave.c:3318-3337 | One call gives the next token of what is left, or overflows where that does not fit. |
| `Weaving.Weaver.PushLevel` | project/cweb/cweave.c:3289-3303 | Entering a text saves the place and mode to return to. |
| `Weaving.Weaver.PopLevel` | project/cweb/cweave.c:3307-3313 | The end of a text goes back to the place and mode saved. |
| `Weaving.FromTheTop` | project/cweb/cweave.c:3374-3376 | Closing the text with an end mark changes neither what it unfolds to nor how deep it nests. |
| `Weaving.UnfoldFlat` | project/cweb/cweave.c:3289-3337 | What is put out of texts that the formatter built is their meaning, the flattening into leaves and marks, with each leaf unfolded. |
| `Weaving.TranslationWoven` | project/cweb/cweave.c:2244-3337 | What is put out of the text `translate` returns is the unfolding of its leaves, with its formatting tokens between them. |
| `CrossRefs.CrossReferences.NewSectionXref` | project/cweb/cweave.c:1030-1046 | Adds the current section under the flag that is set to one name's list, unless it is the last there, changes no other list, and keeps every list in order. |
| `CrossRefs.CrossReferences.SetFileFlag` | project/cweb/cweave.c:1049-1060 | Puts the mark of a file in front of a list, once. |
| `CrossRefs.CrossReferences.StartSection` | project/cweb/cweave.c:1489-1490 | Section numbers only grow, up to the limit, which keeps every list in order. |
| `CrossRefs.CrossReferences.PutFootnotes` | project/cweb/cweave.c:3841-3850 | The walk over the linked list prints the three footnotes of the list. |
| `CrossRefs.CrossReferences.PutFootnote` | project/cweb/cweave.c:3904-3940 | One footnote prints the items above its flag and leaves the rest. |
| `CrossRefs.ReferredGood` | project/cweb/cweave.c:1030-1046 | A list stays a mark of a file at most, then definitions, citations and uses, each ascending and none twice. |
| `CrossRefs.ReferredHas` | project/cweb/cweave.c:1030-1046 | A new reference adds just itself to the items of a list. |
| `CrossRefs.FiledGood` | project/cweb/cweave.c:1049-1060 | The same for the mark of a file. |
| `CrossRefs.FootnotesComplete` | project/cweb/cweave.c:3841-3940 | The footnotes of an ordered list name every definition but the first, every citation and every use, each section once, in ascending order. |
| `IndexSort.IndexSorter.Sort` | project/cweb/cweave.c:3979-4104 | The sort ends with every entry in the index once, in order; it never fails if the stack has room for as many lists as there are entries. |
| `IndexSort.IndexSorter.Unbucket` | project/cweb/cweave.c:4137-4154 | Emptying the buckets stacks their lists so that taking them from the top keeps the order, and empties every bucket. |
| `IndexSort.IndexSorter.DealAll` | project/cweb/cweave.c:4002-4104 | Dealing a list into buckets sorts its names by one byte more and moves every name. |
| `IndexOrder.BeforeDecides` | project/cweb/cweave.c:886-912 | The first difference in the collating order decides the dictionary order, cases folded and shorter names first. |
| `IndexOrder.CollateRank` | project/cweb/cweave.c:886-912 | The collating table and the rank of a byte undo each other, so no two places of the table hold the same byte. |
| `IndexPiles.StackedAgain` | project/cweb/cweave.c:4137-4154 | The stack stays ordered when the list on top gives way to the lists it was dealt into. |
| `IndexPiles.StillInOrder` | project/cweb/cweave.c:4002-4104 | Putting out a finished list keeps the index in order and before everything still stacked. |
| `Strings.WebStrcmp` | project/cweb/common.c:798-809 | The comparison's verdict on the first difference, or on which string begins the other. |
| `Strings.CompareCases` | project/cweb/common.c:798-809 | Exactly one of before, after and compatible (one begins the other) holds, and the verdict tells which. |
| `SectionNames.SectionNameCmp` | project/cweb/common.c:962-991 | Comparing with a name held in pieces is comparing with their concatenation, completed or not; the rest of the string is what the name lacks. |
| `SectionNames.SprintSectionName` | project/cweb/common.c:762-780 | Prints exactly the concatenation of the pieces, without the marks that join them. |
| `SectionNames.Extended` | project/cweb/common.c:845-864 | Extending an incomplete name appends exactly the string given, and completes the name exactly if the string is no abbreviation. |
| `NameLookup.SectionTree.SectionLookup` | project/cweb/common.c:869-957 | Ambiguous exactly if two names fit; entered as new exactly if none fits; otherwise the one that fits is the answer, brought up to date, or refused with the reason. The tree stays ordered by abbreviations none of which begins another. |
| `NameLookup.SectionTree.Find` | project/cweb/common.c:873-905 | The search with its one second subtree to look at finds the unique fitting name, or that two fit, or where a new one is to hang. |
| `NameLookup.SectionTree.Enter` | project/cweb/common.c:814-840 | A new name comes into the tree with the string as its text and abbreviation, all else unchanged. |
| `NameLookup.UpdatedValid` | project/cweb/common.c:913-957 | Shortening an abbreviation or extending a name in place keeps the tree valid, when only that name fits. |
| `NameLookup.TextsOnlyGrow` | project/cweb/common.c:845-864 | No lookup takes anything away from a name's text. |
| `NameLookup.AbbreviationsFit` | project/cweb/common.c:869-957 | Every beginning of a name's text, and everything its text begins, fits the name in a lookup. |
| `NameTree.HungInorder` | project/cweb/common.c:826-838 | A leaf hung below a node comes next to it in the order of the tree, everything else staying in place. |
| `ChangeReader.Input.PrimeTheChangeBuffer` | project/cweb/common.c:388-438 | Skipping to a block and to its first line that is not blank leaves file, buffer and complaints as specified. |
| `ChangeReader.Input.CheckChange` | project/cweb/common.c:443-507 | The matching of a block, line by line, with its complaints, computes the specified state. |
| `ChangeReader.Input.GetLine` | project/cweb/common.c:542-668 | Delivers the next line from the web or the change file, switching between them as specified. |
| `ChangeReader.Input.ReadAll` | project/cweb/common.c:542-682 | The sequence of all lines delivered and the final state are those of the specification. |
| `Patches.ChangeFilesPatch` | project/cweb/common.c:388-682 | Reading a web with a well-formed change file delivers the web with its blocks replaced, left to right, complains of just the lines that do not match, and has something left over exactly if a block was not come to. |
| `Patches.ReadingPatches` | project/cweb/common.c:542-668 | The same from every state between two blocks. |
| `Patches.NoComplaints` | project/cweb/common.c:443-507 | There is no complaint exactly if every block come to matches the web line for line. |
| `Patches.CapitalNeverMatches` | project/cweb/common.c:461-491 | A line starting with a capital control code does not match its own copy, except as the first of a block. |
| `Codes.RoundTrip` | project/cweb/ctangle.c:502-589 | Decoding the bytes of well-formed codes gives these codes back, verbatim regions included. |
| `Items.ItemsRoundTrip` | project/cweb/ctangle.c:1185-1281 | What a text is made of (names, section names, numbers, line markers, literals) is recovered from its bytes. |
| `TokenStore.Store.StoreItems` | project/cweb/ctangle.c:1185-1359 | Laying the items of a text down byte by byte appends their encoding to token memory, and fails exactly where that does not fit. |
| `TokenStore.Store.StoreItem` | project/cweb/ctangle.c:1193-1281 | The same for a single name, section name, number, line marker, character or literal. |
| `TokenStore.Store.StoreText` | project/cweb/ctangle.c:1268-1281 | The text of a literal is appended with its doubled at-signs made single. |
| `TokenStore.Store.StoreLiteral` | project/cweb/ctangle.c:1268-1281 | A string is laid down between its delimiters, its doubled at-signs undone. |
| `TokenStore.UndoubleDouble` | project/cweb/ctangle.c:1268-1281 | Undoubling at-signs undoes doubling them. |
| `TextChains.ReplacementTexts.AddNamed` | project/cweb/ctangle.c:1449-1460 | Adding a text to a section name keeps the directory right: it comes last in that name's chain. |
| `TextChains.ReplacementTexts.AddUnnamed` | project/cweb/ctangle.c:1443-1446 | The same for the unnamed chain. |
| `TextChains.ReplacementTexts.AddMacro` | project/cweb/ctangle.c:1388-1405 | The same for macros, which are on no chain. |
| `TextChains.ReplacementTexts.Macros` | project/cweb/ctangle.c:682-717 | What is put out as definitions is every macro, in the order of definition. |
| `TextChains.EveryTextOnce` | project/cweb/ctangle.c:1443-1460 | In every directory so built each text is in exactly one place: with the macros, on the unnamed chain or on the chain of the name that it was defined for. |
| `TextChains.DirectoryValid` | project/cweb/ctangle.c:1443-1460 | Texts and directory together are a program as the expansion requires it. |
| `Expansion.ExpansionNests` | project/cweb/ctangle.c:753-772 | Section numbers opened are closed again, last opened first closed, however section names refer to each other. |
| `Expansion.DoneExactly` | project/cweb/ctangle.c:514-526 | The expansion comes to an end exactly if no chain of section names, each referred to in the texts of the one before, is longer than the stack has room for, the macros counting as one more. |
| `Expansion.RankedIsDone` | project/cweb/ctangle.c:514-526 | So it does if ranks below the size of the stack fall along every reference. |
| `Scanning.ScannedProgram` | project/cweb/ctangle.c:1364-1470 | Texts scanned and chained as CTANGLE does are a program as the expansion requires it, every text of a chain beginning with its section number and holding no other. |
| `Scanning.Tangle.AddSection` | project/cweb/ctangle.c:1364-1470 | A section's text comes whole into token memory, after its number, and onto the chain of its name or of the program; everything before stays as it was. |
| `Scanning.Tangle.AddText` | project/cweb/ctangle.c:1185-1460 | The same for a text of any owner; it fails exactly where memory or a directory is full. |
| `Scanning.Tangle.PutOut` | project/cweb/ctangle.c:609-677 | From the memory and chains so built the stack machine puts out exactly the visible expansion of the program, to its end if and only if nothing is nested too deep. What it then puts out is, item by item, what the unnamed sections say, each between its section comments, with the texts of section names in their places and a notice for names that have none; the comments are properly nested. |
| `Listing.ProgramSays` | project/cweb/ctangle.c:547-677 | The visible expansion of the program is what its unnamed texts say, item by item: characters and literals byte by byte, identifiers, line marks, and the sections of names, in order. |
| `Tangler.Expander.Output` | project/cweb/ctangle.c:547-677 | The stack machine puts out exactly the visible part of the recursive expansion, and stops with an overflow exactly where the expansion needs more than the stack. |
| `Tangler.Expander.GetOutput` | project/cweb/ctangle.c:547-589 | One call produces the next visible event of what remains, and what remains gets shorter. |
| `Tangler.Expander.Step` | project/cweb/ctangle.c:547-589 | One turn reads one code from memory, in its one, two or six bytes, and does what the expansion does. |
| `Tangler.Expander.PushLevel` | project/cweb/ctangle.c:514-526 | Entering a section name saves the place to return to. |
| `Tangler.Expander.PopLevel` | project/cweb/ctangle.c:531-542 | The end of a text goes on with the chain, or returns. |
| `Bits.FindDiffBit` | aspu_function.h:58-68 | The highest bit in which two addresses differ, or -1 exactly if they are equal. |
| `Bits.Ultrametric` | aspu_function.h:58-68 | Of the levels between three addresses the greatest occurs twice. |
| `Bits.LessIsNumeric` | aspu_rtable.h:61-76 | Comparing addresses from the highest bit down is comparing them as numbers. |
| `Bits.RaisedIsLarger` | aspu_rtable.cc:155-182 | Passing a log on makes it larger as a number and keeps its top bit. |
| `Bits.ChainIsShort` | aspu_rtable.cc:155-182 | A chain of logs passed on at level i has at most 2^i members. |
| `Bits.ComputeHash` | aspu_function.h:70-84 | The loop computes the reversal of the address with its top bit flipped. |
| `Bits.HashIsBijective` | aspu_function.h:70-84 | The hash can be undone: no two ids share one. |
| `RoutingTables.RoutingTable.SetUpdate` | aspu_rtable.cc:100-190 | Learning from a neighbor in place makes the table what the specification says, every level of it. |
| `RoutingTables.RoutingTable.GetUpdate` | aspu_rtable.cc:57-98 | The advert built level by level. |
| `RoutingTables.RoutingTable.GetEntry` | aspu_rtable.cc:304-357 | The search over levels and entries for the best next hop. |
| `RoutingTables.RoutingTable.DAGetEntry` | aspu_rtable.cc:359-414 | The search at the level of the destination. |
| `RoutingTables.RoutingTable.MacFailed` | aspu_rtable.cc:192-217 | Marks just the entries over the failed neighbor. |
| `RoutingTables.RoutingTable.Clear` | aspu_rtable.cc:4-32 | Empties every level. |
| `Learning.NeighborLearned` | aspu_rtable.cc:122-151 | After a neighbor is heard an address is listed at its level exactly if it was before, or it is the neighbor's, whose network id there is at most every one known and at most the largest, and whose link is good enough; old entries stay, a new one is one hop. |
| `Learning.RouteLearned` | aspu_rtable.cc:155-190 | At a level above, what the neighbor advertises is listed exactly if its network id is at most every one known and the metric allows it; a strictly smaller one removes every older entry; a new entry is one hop more over the neighbor's. |
| `Learning.TableLearned` | aspu_rtable.cc:100-190 | Both, for the whole table: levels below the neighbor's stay as they are. |
| `Learning.FirstNeighborKnown` | aspu_rtable.cc:122-151 | A node with an empty table that hears a neighbor has an entry for it. |
| `Learning.NeighborsKnown` | aspu.cc:851-866 | Once all neighbors have been heard there is an entry at every level at which one lives, whatever else they advertise. |
| `Learning.SummaryIsBest` | aspu_rtable.cc:57-98 | What stands for a level in an advert is the first of its best entries: least network id, then least hops or metric, of those that no entry with an interface of its own comes after. |
| `Learning.MarksExactly` | aspu_rtable.cc:192-217 | Exactly the entries over the failed neighbor are marked; the others stay as they were. |
| `Learning.ObjectsMeans` | aspu.cc:793-849 | A neighbor objects to an address exactly if it has that address and a smaller id, or has a route at the level between them into a network of smaller id than the node's own and all that the node knows below that level. |
| `Learning.FirstCandidate` | aspu.cc:746-791 | The address selected is that of the first neighbor that has a candidate, at the highest level at which it has one. |
| `Routing.InsertAdds` | aspu_rtable.cc:291-302 | An entry is added, in its place, exactly if none for its next hop is there. |
| `Routing.SetUpdateGood` | aspu_rtable.cc:100-190 | Whatever a good neighbor advertises, the table keeps the bounds on logs and hops and the levels of next hops. |
| `Routing.SummaryPresent` | aspu_rtable.cc:57-98 | A level is advertised as present exactly if it has an entry. |
| `Routing.GetEntrySelects` | aspu_rtable.cc:304-357 | The next hop is a best live entry of the lowest level, at or above the destination's, that has one; there is none exactly if no level has. |
| `Routing.DAGetEntryChooses` | aspu_rtable.cc:359-414 | The same at the destination's level alone. |
| `Routing.OneHopIsCloser` | aspu_rtable.cc:304-357 | An entry of the destination's level leads strictly closer to it exactly if it is one hop away. |
| `Routing.NextHopIsCloser` | aspu_rtable.cc:304-357 | If that level holds a live neighbor the chosen next hop is strictly closer. |
| `Allocation.SelectIsFree` | aspu.cc:746-791 | An address is found exactly if there is a candidate, lies at the level in question from the neighbor it is taken from, and is no heeded neighbor's of smaller id. |
| `Allocation.Ndp.SelectAddress` | aspu.cc:746-791 | The loops over neighbors and levels, changing and clearing the table as they go, end at that choice. |
| `Allocation.Ndp.ValidateAddress` | aspu.cc:793-849 | True exactly if no heeded neighbor objects to the address. |
| `Allocation.Ndp.Revalidate` | aspu.cc:471-494 | An address objected to is given up for the one selected; the table starts afresh. |
| `Allocation.Ndp.UpdateRoutingTable` | aspu.cc:851-866 | The table learns from every neighbor in turn. |
| `Allocation.Ndp.NeighborInsert` | aspu.cc:649-667 | A neighbor heard of is entered or brought up to date; no id comes to have two records. |
| `Allocation.HeardOnce` | aspu.cc:649-667 | What was heard last is a neighbor's one record, and the others' records stay. |
| `Network.RunGood` | aspu.cc:510-627 | Every state of every run is good, one record for each neighbor's id included, whatever is lost, repeated, delayed or reordered. |
| `Network.RoutesInEveryRun` | aspu_rtable.cc:100-190 | In every run a route at level i has its log between 2^i and 2^(i+1) and fewer hops than the log allows, so that none counts to infinity; its next hop differs in bit i exactly if it is a neighbor. |
| `Network.AdvertsInEveryRun` | aspu_rtable.cc:57-98 | In every run a receiver takes a level for present exactly if the sender had an entry there. |
| `Network.RelayingRaisesLog` | aspu_rtable.cc:155-182 | A relayed route has one hop more and a strictly larger log. |
| `Network.NextHopsInEveryRun` | aspu_rtable.cc:304-357 | In every run there is a next hop exactly if there is a live route at or above the destination's level, and it is strictly closer if a neighbor is live there. |
| `Routes.RouteHistories` | aspu_rtable.cc:100-190 | In every run a route of h hops at level i ends a chain of h increasing logs, all but the last advertised before, and h is at most 2^i. |

## Left out

* Files, terminal, TeX output, tracing, statistics and error texts; files are sequences of lines without
  trailing blanks, errors are values.
* Lexing in CWEAVE and CTANGLE: scraps, items and identifiers are given.
* The cross-references of identifiers, with the side effects of `make_underlined` on them.
* What `make_output` makes of the tokens: escapes, cancelling, quoted characters and line breaking.
- Weaving.Weaver.MakeOutput: section names met on the way, whose C parts are translated and put out in turn, are single tokens here.
- CrossRefs.CrossReferences.NewSectionXref: what comes before the first section is numbered 0 and holds no section names, so numbers start at 1.
- Scanning.Tangle.AddText: literals come with every at-sign doubled, and macros with their names and parameters as items; a text that overflows token memory ends the run, as in CTANGLE, and nothing is said of what is left behind.
- Inserts.TranslationInOrder: gives a sufficient condition. Whether an insert next to a `<` is lost depends on whether production 29 makes the `<` a template bracket, which keeps it, before 84 replaces it; that takes the parse to tell, and `Runs.TranslationCorrect` gives the exact condition on the run.
- Grammar.FirstRuleFires: says nothing of what is not printed: how far the cursor moves back, which tokens wait for a mode, and, of what is, the asterisks that ask for an underlined entry in the index.
- Scraps.PackRoundTrip: token memory in `Formatter` holds tokens as values of a datatype; the sixteen-bit form is shown to be lossless for every packable token, but not carried through the formatter.
- Formatter.Translator.TranslateScraps: gives up where an array is full; CWEAVE checks for twenty free tokens and ten free texts once a turn and once for every final scrap, as the model does, but writes unchecked in between.
- ChangeReader.Input.GetLine: lines that begin with `@i` or `@I` are ordinary lines here; the program opens another file instead.
- ChangeReader.Input.ReadAll: the same lines are read as ordinary ones.
- Patches.ChangeFilesPatch: says nothing about webs or replacements with include lines, for the same reason.
- IndexSort.IndexSorter.Sort: names are non-empty and hold no byte 0 or 0177, and the entries to be sorted are given; that they are the names with references is left to the hash table, which is not modeled.
- NameLookup.SectionTree.SectionLookup: overflow of byte memory and the layout of names in it are not modeled; a name is a sequence of pieces. A complete name does not end in a blank, as both programs see to before looking it up.
- Tangler.Expander.Output: macro definitions put out in the middle of a text are one event, their own spelling and the spacing and continuation states of `out_char` are left out.
- Network.RunGood: clocks and timers are arbitrary events; link quality and the ETX metric are real numbers, without rounding.
- RoutingTables.RoutingTable.GetUpdate: adverts are records, not strings; the interface of a direct entry is the neighbor's.
- Allocation.Ndp.SelectAddress: neighbors are taken in a given order; the order of the `neighborSet` multiset, whose keys change while they are in it, is not modeled.
* Data forwarding, queues and address resolution (`ADP`, `ASPU::forward`), and the distributed address table
  with its string form.
