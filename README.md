# C++17 Complete Guide examples: a verified model of the runtime core

The repository collects small C++17 teaching programs. Most show compile-time
features only. A few hold runtime logic whose behaviour can be stated, and this
project models those in Dafny and proves properties of the model:

- **TrackingResource** (`pmr_tracker.dfy`). A `std::pmr::memory_resource` that
  writes one log line per request, then forwards the request to an upstream
  resource. Its `do_is_equal` combines an identity test, a type test, a prefix
  test and the upstream's own `is_equal`.
- **string_view utilities** (`string_view.dfy`). `asInt` follows `std::from_chars`
  into a 32-bit `int` (section 23.20.3 [utility.from.chars] of ISO/IEC 14882:2017).
  `toString` appends a timestamp without its final newline. The example also builds,
  trims, swaps and assigns views.
- **Node tree** (`node_tree.dfy`). An n-ary tree with append-child, checked child
  indexing and an indented preorder printer.
- **Associative containers** (`containers.dfy`, `node_handles.dfy`, `try_emplace.dfy`,
  `insert_or_assign.dfy`):
  - `std::map` and `std::unordered_map<int, std::string>` are modelled as a Dafny `map`;
  - `std::multimap` is modelled as a key-sorted sequence;
  - the model covers node extract, re-key, insert and merge, as well as the
    hand-written find-then-emplace blocks and the C++17 `try_emplace` and
    `insert_or_assign` that replace them.
- **call / advance** (`advance.dfy`). Forwarding a callable's result, or its
  void-ness. `advance` is written once by tag dispatch (best match) and once with
  constexpr-if (first match), over the four iterator categories. An iterator is
  its integer position.
- **std::clamp** (`clamp.dfy`). With `operator<` and with a caller's comparator
  (section 28.7.9 [alg.clamp] of ISO/IEC 14882:2017).
- **Chained replace** (`evaluation_order.dfy`). Three `replace` calls whose
  positions come from `find`, evaluated in the order C++17 fixes.
- **Request** (`uncaught.dfy`). A destructor that commits or rolls back, depending
  on `std::uncaught_exceptions()`.

Shared helpers:
- `wrappers.dfy`: Option and Result;
- `decimal.dfy`: the decimal text of integers and the value of digit runs;
- `streams.dfy`: an output stream as a sequence of lines.

Inputs the programs take from their environment become parameters:
- the process default memory resource;
- the in-flight exception count;
- the text `std::ctime` returns.

## Model

| member | source | states |
|---|---|---|
| PmrTracker.Upstream.Allocate | include/pmr_tracker.hpp:30 | the upstream the tracker forwards to: a fresh address and a new live block of exactly (bytes, align), or bad_alloc with nothing changed when the budget is too small |
| PmrTracker.Upstream.Deallocate | include/pmr_tracker.hpp:36 | taking back a live block of the same size and alignment removes it from the live set and restores the budget |
| PmrTracker.Upstream.IsEqual | include/pmr_tracker.hpp:14 | the default resource compares equal only to itself |
| PmrTracker.TrackingResource.Default | include/pmr_tracker.hpp:14-18 | a default tracker has the process default resource upstream and an empty prefix |
| PmrTracker.TrackingResource.WithPrefix | include/pmr_tracker.hpp:19-20 | the one-argument constructor sets the prefix and keeps the default upstream |
| PmrTracker.TrackingResource.WithUpstream | include/pmr_tracker.hpp:21-22 | the two-argument constructor stores the given prefix and the given upstream |
| PmrTracker.TrackingResource.Allocate | include/pmr_tracker.hpp:27-31 | exactly one line `prefix + "allocate " + bytes + " Bytes"` is appended, then the identical (bytes, align) goes upstream and its pointer or bad_alloc comes back unchanged; on bad_alloc the line stays written |
| PmrTracker.TrackingResource.Deallocate | include/pmr_tracker.hpp:33-37 | exactly one line `prefix + "deallocate " + bytes + " Bytes"` is appended, then the identical triple is returned upstream |
| PmrTracker.AllocateLine | include/pmr_tracker.hpp:29 | the line starts with the prefix, then "allocate ", then the byte count in decimal, and ends in " Bytes" |
| PmrTracker.DeallocateLine | include/pmr_tracker.hpp:35 | the line starts with the prefix, then "deallocate ", then the byte count in decimal, and ends in " Bytes" |
| PmrTracker.TrackingResource.IsEqual | include/pmr_tracker.hpp:39-45 | is_equal as written: true for the object itself, false for a non-tracker or another prefix, otherwise exactly the upstream's answer about `other`; no log and no state change |
| PmrTracker.TrackingResource.IsEqualIntended | include/pmr_tracker.hpp:43-45 | is_equal as its comment describes it: the same object, or a tracker with the same prefix whose upstream equals this upstream; for a distinct tracker with the same prefix, true exactly when the upstreams are equal |
| PmrTracker.DistinctTrackersNeverEqual | include/pmr_tracker.hpp:45 | with an identity-comparing upstream, a tracker equals another tracker with the same prefix and upstream only if they are the same object |
| PmrTracker.IntendedEqualSameUpstream | include/pmr_tracker.hpp:43-45 | under the intended comparison, two trackers over one upstream are equal exactly when their prefixes agree |
| PmrTracker.PoolAllocateLine | include/pmr_tracker.hpp:29 | the allocate line of a "pool: " tracker for 64 bytes is "pool: allocate 64 Bytes" |
| PmrTracker.PoolDeallocateLine | include/pmr_tracker.hpp:35 | the deallocate line of a "pool: " tracker for 64 bytes is "pool: deallocate 64 Bytes" |
| PmrTracker.AllocateThenDeallocate | include/pmr_tracker.hpp:27-37 | for every size the upstream can serve and every power-of-two alignment, allocating then freeing the same block logs the allocate line and then the deallocate line, returns the upstream's next address, and leaves the upstream's budget and live blocks as they were |
| PmrTracker.AllocateDeallocateScenario | include/pmr_tracker.hpp:27-37 | allocate(64, 8) and then deallocate of the same triple log exactly the two lines, in order; the allocation gets the upstream's next address and the budget is as before |
| PmrTracker.EqualityScenario | include/pmr_tracker.hpp:39-45 | two trackers with the same prefix over one upstream are unequal as written and equal as intended; another prefix is unequal; a tracker equals itself |
| Decimal.NatToString | Ch26_ContainerExtensions/node_handles.cpp:17 | the text `operator<<` writes for a key: non-empty, all digits, no leading zero except for zero |
| Decimal.IntToString | Ch26_ContainerExtensions/node_handles.cpp:17 | a signed key's text starts with '-' exactly when the key is negative |
| Decimal.DigitsValueOfNatToString | Ch19_string_view/string_view.cpp:48 | reading back the digits of a number gives the number |
| Decimal.NatToStringAppend | Ch19_string_view/string_view.cpp:48 | the text of 10n + d is the text of n followed by the digit d |
| StringView.LeadingDigits | Ch19_string_view/string_view.cpp:48 | the length of the longest digit run at the start: all digits before it, none at it |
| StringView.AsInt | Ch19_string_view/string_view.cpp:44-54 | a value is returned only when it fits a 32-bit int, and never when the text does not start with an optional '-' and a digit |
| StringView.LeadingDigitsOfConcat | Ch19_string_view/string_view.cpp:48 | the digit run of digits followed by a non-digit is exactly those digits |
| StringView.AsIntOfSplit | Ch19_string_view/string_view.cpp:44-54 | text made of a sign, a digit run and a non-continuing rest reads as the signed value of the run, or as nothing when out of range |
| StringView.AsIntRoundTrip | Ch19_string_view/string_view.cpp:44-54 | for every int n and any rest that does not start with a digit, asInt(text of n + rest) is n |
| StringView.AsIntRejectsPlusAndBlank | Ch19_string_view/string_view.cpp:48-52 | a leading '+' or blank gives no value |
| StringView.AsIntIgnoresTrailingText | Ch19_string_view/string_view.cpp:48-53 | only the error code is checked, so "12ab" reads as 12 |
| StringView.IntMaxPlusOneText | Ch19_string_view/string_view.cpp:48 | the decimal text of 2^31 is "2147483648" |
| StringView.IntMinText | Ch19_string_view/string_view.cpp:48 | the text of the smallest int is "-2147483648" |
| StringView.AsIntOfIntMin | Ch19_string_view/string_view.cpp:44-54 | "-2147483648" reads as the smallest int |
| StringView.AsIntOutOfRange | Ch19_string_view/string_view.cpp:48-52 | a digit run above the largest int gives no value |
| StringView.AsIntPastIntMax | Ch19_string_view/string_view.cpp:48-52 | "2147483648" gives no value |
| StringView.AsIntRejectsNonNumbers | Ch19_string_view/string_view.cpp:48-52 | "-", "" and "+5" give no value |
| StringView.ToString | Ch19_string_view/string_view.cpp:56-63 | the result is the prefix followed by the timestamp without its last character |
| StringView.CStrLen | Ch19_string_view/string_view.cpp:90 | the length a view takes from a NUL-terminated buffer is the index of its first NUL |
| StringView.CStrLenOfLiteral | Ch19_string_view/string_view.cpp:90 | a literal's buffer (its text and a NUL) has the text's length |
| StringView.View.Empty | Ch19_string_view/string_view.cpp:89 | a default view is empty |
| StringView.View.FromCString | Ch19_string_view/string_view.cpp:90 | a view of a C string denotes the characters up to its first NUL |
| StringView.View.FromBuffer | Ch19_string_view/string_view.cpp:95 | a view with an explicit length denotes exactly that many characters, NULs included |
| StringView.View.RemovePrefix | Ch19_string_view/string_view.cpp:113 | for k at most the size, the first k characters are dropped and the size shrinks by k |
| StringView.View.RemoveSuffix | Ch19_string_view/string_view.cpp:114 | for k at most the size, the last k characters are dropped and the size shrinks by k |
| StringView.View.Assign | Ch19_string_view/string_view.cpp:108 | after assignment both views denote the same characters |
| StringView.Swap | Ch19_string_view/string_view.cpp:107 | each view takes over the other's characters |
| StringView.ConstructionScenario | Ch19_string_view/string_view.cpp:89-95 | the sizes are 0, 5 for "hello", and 6 for {"hello", 6}, whose last character is the NUL |
| StringView.SwapAssignScenario | Ch19_string_view/string_view.cpp:105-108 | after swap and sv2 = sv1 both views denote "world" |
| StringView.TrimScenario | Ch19_string_view/string_view.cpp:112-114 | ", some text! I" trimmed by 2 and 3 is "some text" |
| NodeTree.Add | Ch26_ContainerExtensions/support_for_incomplete_types.cpp:15 | the child becomes the last child; the value and the earlier children are unchanged |
| NodeTree.At | Ch26_ContainerExtensions/support_for_incomplete_types.cpp:16 | the idx-th child, and out_of_range exactly when idx is past the last child |
| NodeTree.AddToChild | Ch26_ContainerExtensions/support_for_incomplete_types.cpp:35-36 | adding through root[idx] changes only child idx, as add says; out_of_range when idx is past the end |
| NodeTree.Spaces | Ch26_ContainerExtensions/support_for_incomplete_types.cpp:20 | indent blanks |
| NodeTree.LinesOfAllAppend | Ch26_ContainerExtensions/support_for_incomplete_types.cpp:22 | the printout of children followed by one more child ends with that child's printout |
| NodeTree.SizeOfAllAppend | Ch26_ContainerExtensions/support_for_incomplete_types.cpp:15 | one more child adds its subtree's node count |
| NodeTree.LinesCount | Ch26_ContainerExtensions/support_for_incomplete_types.cpp:18-23 | print writes exactly one line per node of the subtree |
| NodeTree.LinesOfAllCount | Ch26_ContainerExtensions/support_for_incomplete_types.cpp:22 | the children's printouts together have one line per node |
| NodeTree.AddPrintsChildLast | Ch26_ContainerExtensions/support_for_incomplete_types.cpp:15-23 | after add, the printout is the old printout followed by the child's printout two columns further in |
| NodeTree.Print | Ch26_ContainerExtensions/support_for_incomplete_types.cpp:18-23 | for indent >= 0, the counting loop and the recursion write the node at indent, then each child's subtree at indent + 2, in preorder |
| NodeTree.OneChildLines | Ch26_ContainerExtensions/support_for_incomplete_types.cpp:18-23 | a node with one leaf child prints two lines |
| NodeTree.MainTreeShape | Ch26_ContainerExtensions/support_for_incomplete_types.cpp:32-36 | the example builds top with children "elem 1" and "elem2", each holding one leaf, without out_of_range |
| NodeTree.PrintMainTree | Ch26_ContainerExtensions/support_for_incomplete_types.cpp:32-37 | building succeeds and the tree prints "top", "  elem 1", "    elem 1.1", "  elem2", "    elem 2.1" |
| Containers.TryEmplaced | Ch26_ContainerExtensions/try_emplace.cpp:7-8 | the key set gains k; k keeps its old value if it had one, else gets v; other keys are unchanged |
| Containers.InsertOrAssigned | Ch26_ContainerExtensions/insert_or_assign.cpp:6-7 | the key set gains k, k maps to v, other keys are unchanged |
| Containers.SubscriptAssigned | Ch26_ContainerExtensions/insert_or_assign.cpp:24 | m[k] = v: the key set gains k, k maps to v, other keys keep their values |
| Containers.InsertOrAssignIsSubscriptAssign | Ch26_ContainerExtensions/insert_or_assign.cpp:23-24 | insert_or_assign has the effect of m[k] = v (default-construct, then assign) |
| Containers.InsertOrAssignIdempotent | Ch26_ContainerExtensions/insert_or_assign.cpp:29 | insert_or_assign twice is insert_or_assign once |
| Containers.TryEmplaceIdempotent | Ch26_ContainerExtensions/try_emplace.cpp:26 | a second try_emplace of the same key changes nothing, whatever its value |
| Containers.UpperBound | Ch26_ContainerExtensions/node_handles.cpp:43-44 | the first index whose key is greater than k |
| Containers.InsertAtUpperBoundSorted | Ch26_ContainerExtensions/node_handles.cpp:43-44 | multimap insertion keeps the entries sorted and adds exactly that one entry |
| Containers.InsertAtUpperBound | Ch26_ContainerExtensions/node_handles.cpp:43-44 | one entry more: the new entry sits at the upper bound of its key, the entries before it and after it are the old ones in their old order |
| Containers.InsertKeepsOrder | Ch26_ContainerExtensions/node_handles.cpp:43-44 | putting an entry between the keys not above it and the keys above it keeps the order |
| Containers.MergeFromSnoc | Ch26_ContainerExtensions/node_handles.cpp:51-53 | each further source entry moves when its key is still absent and stays in the source otherwise |
| Containers.MergeFrom | Ch26_ContainerExtensions/node_handles.cpp:53 | merge never removes a key from the map and never adds entries to the source |
| Containers.MergeKeepsExisting | Ch26_ContainerExtensions/node_handles.cpp:51-53 | merge never overwrites a map entry, and the map ends with the keys of both |
| Containers.MergeConserves | Ch26_ContainerExtensions/node_handles.cpp:51-53 | the sizes of map and source add up to the sizes before; what stays in the source has a key that is in the map and comes from the source |
| Containers.MovedEntriesGrow | Ch26_ContainerExtensions/node_handles.cpp:53 | moving one entry with a new key adds exactly that entry to what has moved |
| Containers.MergeConservesEntries | Ch26_ContainerExtensions/node_handles.cpp:51-53 | no element is lost or duplicated: the entries left in the source and the entries moved into the map are, as a multiset, exactly the source's entries |
| Containers.MergeValuesFromSource | Ch26_ContainerExtensions/node_handles.cpp:51-53 | every key the merge adds to the map comes with the value of a source entry with that key |
| Containers.MergeTakesFirstValue | Ch26_ContainerExtensions/node_handles.cpp:51-53 | when a key is new to the map, its first source entry is the one that moves: the map gets that entry's value |
| Containers.MergeKeepsSourceSorted | Ch26_ContainerExtensions/node_handles.cpp:51-53 | what stays in a sorted multimap is still sorted |
| Containers.LeastExists | Ch26_ContainerExtensions/node_handles.cpp:16 | a non-empty key set has a least key |
| Containers.SortedKeys | Ch26_ContainerExtensions/node_handles.cpp:16 | the keys in strictly ascending order, each exactly once |
| Containers.LeastFirst | Ch26_ContainerExtensions/node_handles.cpp:16 | the least key followed by the others in ascending order is ascending and lists them all |
| Containers.KeysIncreasingUnique | Ch26_ContainerExtensions/node_handles.cpp:16 | two key-ascending listings of the same entries are the same listing |
| Containers.EntriesFor | Ch26_ContainerExtensions/node_handles.cpp:16 | the entries for a sequence of keys, in that order |
| Containers.Listing | Ch26_ContainerExtensions/node_handles.cpp:16 | the map's iteration order: every entry once, keys strictly ascending |
| Containers.EntriesForContents | Ch26_ContainerExtensions/node_handles.cpp:16 | listing all of a map's keys lists exactly its entries |
| Containers.ListingIs | Ch26_ContainerExtensions/node_handles.cpp:16 | any key-ascending listing of exactly the map's entries is its iteration order |
| Containers.PrintMap | Ch26_ContainerExtensions/node_handles.cpp:13-20 | "[ ", then "{key: value}, " for each entry in order, then "]\n" |
| Containers.EntryText | Ch26_ContainerExtensions/node_handles.cpp:17 | "{", the key's decimal text, ": ", the value and "}, ", with the length of those parts |
| Containers.EntriesText | Ch26_ContainerExtensions/node_handles.cpp:16-18 | at least six characters per entry, and the text begins with "{" when there is an entry |
| Containers.EntriesTextSnoc | Ch26_ContainerExtensions/node_handles.cpp:16-18 | one more entry appends exactly that entry's text |
| Containers.EntriesTextAppend | Ch26_ContainerExtensions/node_handles.cpp:16-18 | the text of two runs of entries is the first run's text followed by the second's |
| Containers.StringVar.MoveOut | Ch26_ContainerExtensions/try_emplace.cpp:21 | moving from a string yields its contents and leaves it empty |
| Containers.AssocMap.Find | Ch26_ContainerExtensions/try_emplace.cpp:19 | the value at k, or end exactly when k is absent |
| Containers.AssocMap.Items | Ch26_ContainerExtensions/node_handles.cpp:16 | iterating the map visits every entry once, in strictly ascending key order |
| Containers.AssocMap.Emplace | Ch26_ContainerExtensions/try_emplace.cpp:21 | inserts only when k is absent, and reports whether it did |
| Containers.AssocMap.AssignAt | Ch26_ContainerExtensions/insert_or_assign.cpp:21 | assignment through the found position replaces k's value and moves from the string |
| Containers.AssocMap.TryEmplace | Ch26_ContainerExtensions/try_emplace.cpp:26-30 | true and an insertion when k is absent; otherwise false, the map unchanged and the argument unmoved; the iterator refers to k's entry either way |
| Containers.AssocMap.InsertOrAssign | Ch26_ContainerExtensions/insert_or_assign.cpp:29 | k maps to the moved string afterwards, whether k was present or not |
| Containers.AssocMap.Extract | Ch26_ContainerExtensions/node_handles.cpp:29 | removes exactly k's entry and returns it as a node; an absent key gives an empty node |
| Containers.AssocMap.InsertNode | Ch26_ContainerExtensions/node_handles.cpp:31 | a node with a new key is inserted; an empty node inserts nothing; a node with a present key is handed back and the map is unchanged |
| Containers.AssocMap.Merge | Ch26_ContainerExtensions/node_handles.cpp:53 | the map and the source afterwards are those the merge definition gives, and the source stays sorted |
| Containers.MultiMap.constructor | Ch26_ContainerExtensions/node_handles.cpp:35-38 | a multimap built from sorted entries holds them |
| Containers.MultiMap.InsertNode | Ch26_ContainerExtensions/node_handles.cpp:43-44 | a node goes after the last entry with the same key; an empty node inserts nothing; the entries stay sorted |
| Containers.UpperBoundIsFirstGreater | Ch26_ContainerExtensions/node_handles.cpp:43-44 | the linear scan's stopping index is the upper bound |
| NodeHandles.Rekeyed | Ch26_ContainerExtensions/node_handles.cpp:30 | node.key() = k keeps the value under the new key |
| NodeHandles.MoveNodeConserves | Ch26_ContainerExtensions/node_handles.cpp:43-44 | moving a node from the map to the multimap keeps the total count, keeps the multimap sorted and moves that entry |
| NodeHandles.RekeyMovesValue | Ch26_ContainerExtensions/node_handles.cpp:29-31 | extracting k and reinserting under a fresh key moves that one value; other entries are unchanged |
| NodeHandles.FinalMapListing | Ch26_ContainerExtensions/node_handles.cpp:55 | the merged map iterates as 1, 2, 3, 4 |
| NodeHandles.RekeyScenario | Ch26_ContainerExtensions/node_handles.cpp:24-31 | extract(2) gives (2, bar) and the reinsertion under 4 yields {1:foo, 3:baz, 4:bar} |
| NodeHandles.InsertBazTrace | Ch26_ContainerExtensions/node_handles.cpp:43 | (3, baz) goes after (3, three) |
| NodeHandles.InsertBarTrace | Ch26_ContainerExtensions/node_handles.cpp:44 | (4, bar) goes at the end |
| NodeHandles.MoveNode | Ch26_ContainerExtensions/node_handles.cpp:43-44 | k's entry, if any, leaves the map and is inserted into the multimap |
| NodeHandles.MoveMapTrace | Ch26_ContainerExtensions/node_handles.cpp:43-44 | the two extractions leave {1:foo} |
| NodeHandles.MoveNodesScenario | Ch26_ContainerExtensions/node_handles.cpp:35-44 | after both moves the map is {1:foo} and the multimap has six entries, in order |
| NodeHandles.MergeTrace | Ch26_ContainerExtensions/node_handles.cpp:53 | merging moves 2, 3 and 4 once each and keeps (1, one), (3, baz), (4, bar) |
| NodeHandles.MergeScenario | Ch26_ContainerExtensions/node_handles.cpp:51-57 | the map becomes {1:foo, 2:two, 3:three, 4:four}; the multimap keeps three entries; seven in all |
| NodeHandles.PrintMergedMap | Ch26_ContainerExtensions/node_handles.cpp:13-20 | printing the merged map writes its four entries in ascending key order between "[ " and "]\n" |
| TryEmplaceExample.FindThenEmplace | Ch26_ContainerExtensions/try_emplace.cpp:18-22 | inserts (k, s) only when k is absent; when k is present neither the map nor s changes; the map is the one try_emplace gives |
| TryEmplaceExample.TryEmplaceScenario | Ch26_ContainerExtensions/try_emplace.cpp:13-31 | 42 maps to "ni" after the block; try_emplace then returns false, ss keeps "ninini", 42 still maps to "ni", and std::cerr gets the one diagnostic line for "ninini" and 42 |
| TryEmplaceExample.DidNotEmplaceLine | Ch26_ContainerExtensions/try_emplace.cpp:29-30 | the diagnostic is the fixed text with the unmoved string in quotes and the key in decimal, each part at its place |
| TryEmplaceExample.NotEmplacedNininiLine | Ch26_ContainerExtensions/try_emplace.cpp:29-30 | for "ninini" and 42 the diagnostic reads `did not emplace value = "ninini", element for key = 42 already exists` |
| InsertOrAssignExample.FindThenEmplaceOrAssign | Ch26_ContainerExtensions/insert_or_assign.cpp:16-22 | afterwards k maps to s, whether or not it was present; the map is the one insert_or_assign gives |
| InsertOrAssignExample.InsertOrAssignScenario | Ch26_ContainerExtensions/insert_or_assign.cpp:12-30 | 42 maps to "ni" after the block, and the final map is {1:foo, 2:bar, 3:baz, 42:ninini} |
| Advance.Call | Ch10_ConstexprIf/other_examples.cpp:12-28 | the callable's result unchanged, and no value exactly when it returns void |
| Advance.OverloadFor | Ch10_ConstexprIf/other_examples.cpp:40-67 | overload resolution picks the most derived overload tag the category converts to |
| Advance.DispatchAgrees | Ch10_ConstexprIf/other_examples.cpp:37-92 | for each of the four standard tags with an advance branch, the constexpr-if chain picks the branch overload resolution picks |
| Advance.RandomAccessConvertsToBidirectional | Ch10_ConstexprIf/other_examples.cpp:42-60 | a tag that converts to the random-access tag also converts to the bidirectional one |
| Advance.OverloadForTag | Ch10_ConstexprIf/other_examples.cpp:37-67 | for any tag, including the output tag and derived tags, overload resolution picks the most derived overload tag it converts to, and none exactly when it converts to no overload's tag |
| Advance.FirstMatchTag | Ch10_ConstexprIf/other_examples.cpp:72-91 | is_same sends only the exact random-access and bidirectional tags to their branches; every other tag, derived ones included, takes the input loop |
| Advance.DispatchAgreesExactly | Ch10_ConstexprIf/other_examples.cpp:34-35 | best match and first match agree exactly for the standard tags and for tags that reach only the input overload; they differ for the output tag and for tags derived from the bidirectional or random-access tag |
| Advance.DerivedRandomAccessDisagrees | Ch10_ConstexprIf/other_examples.cpp:34-35 | for a tag derived from the random-access tag, tag dispatch does pos += n with no steps while the constexpr-if chain makes n increments |
| Advance.FirstMatch | Ch10_ConstexprIf/other_examples.cpp:72-91 | the branch the constexpr-if chain takes is one of the three overload tags and one the category derives from |
| Advance.Steps | Ch10_ConstexprIf/other_examples.cpp:42-67 | the increments minus the decrements a branch performs is n, or 0 for random access |
| Advance.AdvanceRandomAccess | Ch10_ConstexprIf/other_examples.cpp:42-46 | pos += n, and no single steps |
| Advance.StepForward | Ch10_ConstexprIf/other_examples.cpp:51-53 | for n >= 0, exactly n increments reach pos + n |
| Advance.StepBackward | Ch10_ConstexprIf/other_examples.cpp:56-58 | for n < 0, exactly -n decrements reach pos + n |
| Advance.AdvanceBidirectional | Ch10_ConstexprIf/other_examples.cpp:47-60 | n increments for n >= 0, -n decrements otherwise, ending at pos + n |
| Advance.AdvanceInput | Ch10_ConstexprIf/other_examples.cpp:61-67 | for n >= 0, exactly n increments reach pos + n |
| Advance.AdvanceTagDispatch | Ch10_ConstexprIf/other_examples.cpp:37-67 | the chosen overload ends at pos + n with the steps of that overload |
| Advance.AdvanceConstexprIf | Ch10_ConstexprIf/other_examples.cpp:69-92 | the first matching branch ends at pos + n with the steps of that branch |
| Advance.BothAdvancesAgree | Ch10_ConstexprIf/other_examples.cpp:37-92 | both versions give the same position and the same steps, for each of the four standard tags with an advance branch |
| Clamp.ClampBy | Ch25_Other_utilities/clamp.cpp:20-21 | lo when v is less than lo, else hi when hi is less than v, else v |
| Clamp.ClampByInRange | Ch25_Other_utilities/clamp.cpp:5-8 | under a strict weak ordering the result is between the bounds |
| Clamp.ClampByIdempotent | Ch25_Other_utilities/clamp.cpp:5-8 | clamping a clamped value with the same comparator changes nothing |
| Clamp.ClampInt | Ch25_Other_utilities/clamp.cpp:5-15 | for lo <= hi the result is in [lo, hi], and it is v when v is already in range |
| Clamp.ClampIsMinOfMax | Ch25_Other_utilities/clamp.cpp:6 | clamp(v, lo, hi) is min(max(v, lo), hi) |
| Clamp.ClampIntIdempotent | Ch25_Other_utilities/clamp.cpp:6-8 | clamping twice is clamping once |
| Clamp.AbsLessIsStrictWeakOrder | Ch25_Other_utilities/clamp.cpp:21 | comparing by magnitude is a strict weak ordering |
| Clamp.AbsLess | Ch25_Other_utilities/clamp.cpp:21 | l is less than r exactly when l's magnitude is below r's, stated as l * l < r * r |
| Clamp.ClampByAbsKeepsMagnitudeInRange | Ch25_Other_utilities/clamp.cpp:19-23 | with the magnitude comparator, a value whose magnitude lies between the bounds' is kept |
| Clamp.PlainClampTrace | Ch25_Other_utilities/clamp.cpp:14-16 | -7, 0, 8, 15 clamped to [5, 13] give 5, 5, 8, 13 |
| Clamp.AbsClampTrace | Ch25_Other_utilities/clamp.cpp:19-23 | with the magnitude comparator they give -7, 5, 8, 13 |
| EvaluationOrder.FindFrom | Ch8_OtherFeatures/defined_expression_evaluation_order.cpp:33-34 | the first occurrence at or after i, or npos when there is none |
| EvaluationOrder.Find | Ch8_OtherFeatures/defined_expression_evaluation_order.cpp:33-34 | the first occurrence of t, or npos exactly when t does not occur |
| EvaluationOrder.FindFromIs | Ch8_OtherFeatures/defined_expression_evaluation_order.cpp:33-34 | t is first found at i when it occurs there and nothing earlier starts like t |
| EvaluationOrder.Replaced | Ch8_OtherFeatures/defined_expression_evaluation_order.cpp:32-34 | s[..pos] + t + s[pos + len..], the count cut off at the end; the length changes by |t| - len |
| EvaluationOrder.StdString.FindText | Ch8_OtherFeatures/defined_expression_evaluation_order.cpp:33-34 | find runs on the current contents |
| EvaluationOrder.StdString.Replace | Ch8_OtherFeatures/defined_expression_evaluation_order.cpp:32-34 | out_of_range, with nothing changed, exactly when pos is past the end; otherwise the contents are replaced |
| EvaluationOrder.ReplacedMiddle | Ch8_OtherFeatures/defined_expression_evaluation_order.cpp:32-34 | replacing exactly the middle part b of a + b + c gives a + t + c |
| EvaluationOrder.FirstStep | Ch8_OtherFeatures/defined_expression_evaluation_order.cpp:30-32 | replace(0, 8, "") gives "it even works if you don't believe" |
| EvaluationOrder.FindEven | Ch8_OtherFeatures/defined_expression_evaluation_order.cpp:33 | in the first result "even" is at 3 |
| EvaluationOrder.SecondStep | Ch8_OtherFeatures/defined_expression_evaluation_order.cpp:33 | replacing "even" at 3 gives "it always works if you don't believe" |
| EvaluationOrder.FindDontBelieve | Ch8_OtherFeatures/defined_expression_evaluation_order.cpp:34 | in the second result "don't believe" is at 23 |
| EvaluationOrder.ThirdStep | Ch8_OtherFeatures/defined_expression_evaluation_order.cpp:34 | replacing it gives "it always works if you use C++17" |
| EvaluationOrder.ReplaceChain | Ch8_OtherFeatures/defined_expression_evaluation_order.cpp:30-35 | each find sees the previous replace's result; the positions are 3 and 23, and the final string is "it always works if you use C++17" |
| EvaluationOrder.FindEvenInOriginal | Ch8_OtherFeatures/defined_expression_evaluation_order.cpp:30-33 | searched in the original string "even" is at 11, so the order of evaluation decides the outcome |
| Uncaught.Request.constructor | Ch25_Other_utilities/uncaught.cpp:14-19 | the name and the in-flight count at construction are fixed |
| Uncaught.Request.Commit | Ch25_Other_utilities/uncaught.cpp:30-32 | exactly one line naming the request |
| Uncaught.Request.Rollback | Ch25_Other_utilities/uncaught.cpp:33-35 | exactly one line naming the request |
| Uncaught.CommitLine | Ch25_Other_utilities/uncaught.cpp:31 | two blanks and "commit() for ", then the request's name |
| Uncaught.RollbackLine | Ch25_Other_utilities/uncaught.cpp:34 | two blanks and "rollback() for ", then the request's name |
| Uncaught.Request.Destroy | Ch25_Other_utilities/uncaught.cpp:21-28 | exactly one of rollback and commit, and rollback exactly when more exceptions are in flight than at construction |
| Uncaught.RequestScenario | Ch25_Other_utilities/uncaught.cpp:38-49 | r1 rolls back and r2 commits, printing "  rollback() for r1" then "  commit() for r2" |

## Left out

- The memory resources' raw memory is not modelled. The upstream hands out abstract addresses, and a ghost map records the live blocks.
- The default resource is an explicit constructor parameter of the tracker, standing in for `std::pmr::get_default_resource()`.
- Chained trackers over pool resources, as other programs of the repository build them, are not part of this model: pool and monotonic resources are library internals.
- `std::cerr` and `std::cout` are sequences of whole lines. Interleaving between the two streams is not modelled.
- PmrTracker.TrackingResource.Allocate: the upstream's `std::bad_alloc` is decided by a byte budget (its capacity), standing in for the exhaustion of real memory.
- PmrTracker.TrackingResource: the upstream is always a plain Upstream resource. A tracker over another tracker, which the two-argument constructor would accept as a `memory_resource*`, is not modelled.
- PmrTracker.TrackingResource.Allocate: an alignment that is not a power of two is excluded by the requires, because the upstream's behaviour for it is undefined.
- StringView.ToString: the clock and `std::ctime` are not modelled. The ctime text is a parameter, and the function requires it to be non-empty, as `remove_suffix(1)` does.
- StringView.AsInt: the view is modelled as its characters. The null data pointer of a default view has nothing to read, and gives no value like an empty view.
- A view does not own its characters. The model keeps the characters in the view object, so the lifetime and aliasing dangers the example warns about are not captured.
- The string_view operation table in the example's comments (compare, find, substr, iterators, hash) is documentation, not code, and is not modelled.
- NodeTree: a Node and its children are values (vector by value), so add and mutation through operator[] give the updated tree rather than updating in place.
- Containers.AssocMap: `std::unordered_map` shares the ordered map's model. Its iteration order is never observed by the examples.
- Containers.AssocMap.Emplace: the source calls emplace only for an absent key. The model moves from the string whatever happens, because the value is built before the key is looked up.
- Containers.StringVar.MoveOut: a moved-from `std::string` is modelled as the empty string, whereas the standard promises only a valid but unspecified state. Containers.AssocMap.Emplace, Containers.AssocMap.TryEmplace and Containers.AssocMap.InsertOrAssign inherit this when they move.
- NodeHandles.MoveNode: `extract(find(3))` by iterator is modelled as extract by key. It is the same entry, because a map has unique keys.
- Containers.PrintMap and NodeHandles.PrintMergedMap state the printed text through the entries' text function rather than as one literal string, to keep the proofs small.
- Of the example's print_map calls, only the printout of the merged map (Ch26_ContainerExtensions/node_handles.cpp:55) is stated as a scenario. Containers.PrintMap covers the others in general.
- Advance: the file does not compile as written:
  - `advance` is defined twice (Ch10_ConstexprIf/other_examples.cpp:37 and :69);
  - `cat` is a type passed as a value (:40);
  - `std::bidirectional_access_iterator_tag` does not exist (:75).
  The model gives the intended semantics: tag dispatch on an iterator-category value, and the bidirectional tag in the constexpr-if chain.
- Advance: the Distance type's overflow is not modelled (the integers are unbounded).
- Advance.DispatchAgrees and Advance.BothAdvancesAgree: stated over the four standard tags with an advance branch (input, forward, bidirectional, random access). The output tag and tags derived from a standard tag, where the two versions differ, are covered by Advance.DispatchAgreesExactly and Advance.DerivedRandomAccessDisagrees on the Tag type, not by the two advance methods, which take a Category.
- Advance.AdvanceInput and Advance.AdvanceTagDispatch require n >= 0 for the input overload, because the loop never ends for a negative n.
- Advance.Call models void-returning callables as returning the unit value and gives back Nothing. The `noexcept` specification and perfect forwarding are compile-time properties.
- The type-matching variant visitor and `bar` in the same file only print by type at compile time, and are not modelled.
- EvaluationOrder.Find: strings are assumed shorter than npos (2^64 - 1 characters), so that a position never collides with npos.
- Uncaught: the in-flight count `std::uncaught_exceptions()` is a parameter. The exception objects and stack unwinding are represented only by that count.

## Findings

| source | as written | input that shows it | evidently intended | confidence | as-written member | corrected member |
|---|---|---|---|---|---|---|
| include/pmr_tracker.hpp:45 | `upstream_->is_equal(other)` asks the upstream about the other tracker itself | two distinct trackers with prefix "pool: " over the same default resource: the default resource compares by identity, so is_equal is false | as the comment at :43 says, equal when the prefixes are equal and the upstreams are equal, i.e. `upstream_->is_equal(*op->upstream_)` | not executed; medium (the comment states the intent) | PmrTracker.TrackingResource.IsEqual, PmrTracker.DistinctTrackersNeverEqual | PmrTracker.TrackingResource.IsEqualIntended, PmrTracker.IntendedEqualSameUpstream |
