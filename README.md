# Bizmate core rules in Dafny

Bizmate is a Unity point-of-sale app for small shops, backed by Firebase. A shop owner signs in, keeps a product inventory, sells from a cart, issues electronic invoices through the FPT e-invoice service, and manages the shop's license with vouchers. It bundles the BansheeGz BGDatabase Excel runtime to import and export its tables. Most of the code is UI and Firestore wiring. Underneath it are sequential rules, and this project models those rules and proves what they promise:

- **SimpleJSON**, the JSON reader and writer the e-invoice client uses (`json_text`, `json`, `json_layout`, `json_node`, `json_roundtrip`):
  - string escaping and unescaping;
  - the lenient parser;
  - the compact and indented writers;
  - the JSONObject and JSONArray containers updated in place (`slot_dict` models the .NET Dictionary under JSONObject).
  
  Headline result: parsing what the writer saved gives back the tree.
- **FPT e-invoice** (`fpt_invoice`, `fpt_api_client`, `sales_fpt_invoice`):
  - the payload records and their key-presence rules;
  - base64url handling and the JWS compact form of the access token, with the token-freshness test and the bounded refresh retry;
  - the error messages;
  - the invoice built from a cart, and the reading of the reply.
- **Session cache and gating** (`shop_data`, `shop_session`, `package_config`): the shop record mirrored into PlayerPrefs (save and load round trip), and the package feature lookup every screen uses.
- **Login and settings** (`auth`, `shop_setting`, `package_panel`, `einvoice_panel`, `shop_info_panel`, `dropdown`):
  - account creation and login checks;
  - the post-login routing;
  - voucher redemption and license extension;
  - the package toggles, which keep exactly one package on;
  - the settings panels' edit, save and cancel cycles.
- **Inventory and sales** (`products`, `sorting`, `inventory`, `add_product_panel`, `import_stock_panel`, `sales_cart`, `cart_item_ui`, `product_search_item`, `sales_finalize`):
  - filters, sorting and the stock summary;
  - the add-product and import-stock validators;
  - the cart, whose lines are shared with its UI rows, and its stock limits;
  - the quantity clamp of the search popup;
  - the complete-sale flow with its subtotal, sale lines and stock decrements.
- **Excel runtime** (`excel_cells`, `excel_ids`, `excel_writer`, `excel_reader`):
  - cell emptiness and cell-to-text conversion;
  - the id resolvers;
  - row allocation and order-preserving row deletion on the writer side;
  - header mapping, row classification and the data-then-relations flush on import.

Remote calls (Firebase Auth, Firestore, HTTP) become parameters: whether a call succeeds, what it returns. The clock, fresh ids and culture-dependent text functions are parameters as well. Writes to Firestore and to the BGDatabase repository are kept as logs. Objects that the source updates in place are classes, and the methods on them state the new state. Pure rules are functions, with lemmas about them.

Some handlers are modelled as written even where their effect looks unintended. After a successful save, the package and e-invoice panels leave their save and cancel buttons disabled; these panels are created afresh for each visit. The cases that look like defects are listed under "Findings".

## Model

| member | source | states |
|---|---|---|
| DotNetText.Trim | Assets/Scripts/Login/AuthManger.cs:253-254 | string.Trim drops exactly the leading and trailing white space: the result is a slice of the input, starts and ends with a non-white character, and is empty iff the input is all white space |
| DotNetText.TrimIdempotent | Assets/Scripts/setting/ShopInfoPanelController.cs:182-184 | trimming an already trimmed string changes nothing |
| DotNetText.Split | Assets/Scripts/FptEInvoice/FptEInvoiceApiClient.cs:169 | string.Split(sep) yields one piece more than there are separators, and no piece contains the separator |
| DotNetText.JoinSplit | Assets/Scripts/FptEInvoice/FptEInvoiceApiClient.cs:169 | joining the pieces of Split with the separator gives the original text back |
| DotNetText.TryParseLong | Assets/Scripts/Sale/ProductSearchUIItem.cs:111 | long.TryParse succeeds only with a value inside the 64-bit range |
| DotNetText.TryParseInt | Assets/Scripts/FptEInvoice/SimpleJSON.cs:431 | int.TryParse succeeds only with a value inside the 32-bit range |
| DotNetText.NatToDigits | Assets/Scripts/setting/ShopSessionData.cs:150 | the decimal digits written for a number have that value |
| DotNetText.ParseLongToString | Assets/Scripts/setting/ShopSessionData.cs:150 | long.TryParse reads back every 64-bit value that long.ToString wrote |
| Dropdown.FindIndex | Assets/Scripts/setting/EInvoicePanelController.cs:126 | options.FindIndex returns the first option whose text equals the stored value, and -1 exactly when no option does |
| Dropdown.DisplayIndex | Assets/Scripts/setting/EInvoicePanelController.cs:126-127 | the selected dropdown index shows the stored value when it is one of the options, and falls back to option 0 when it is not or is null |
| Dropdown.DisplayIndexOfOption | Assets/Scripts/setting/ShopInfoPanelController.cs:129-130 | with distinct options, showing a stored option selects exactly that option |
| PackageConfig.FindIndex | Assets/Scripts/setting/PackageConfig.cs:29 | List.Find locates the first package with the name, and finds none exactly when no package carries it |
| PackageConfig.GetPackageDetailsFirst | Assets/Scripts/setting/PackageConfig.cs:41-45 | GetPackageDetails is null when the list is null or no package has the name, and otherwise the first package with that name |
| PackageConfig.HasFeatureIff | Assets/Scripts/setting/PackageConfig.cs:24-38 | HasFeature holds iff the name is non-empty, the list exists, the first package with that name has a feature list, and the feature is in it |
| Products.ProductData.constructor | Assets/Scripts/Inventory/ProductData.cs:1-42 | a shared product object starts out holding the given product record |
| Products.FindIndex | Assets/Scripts/Sale/SalesCartManager.cs:84 | the position of the first product with the id, and none exactly when no product has it |
| Products.FirstWithId | Assets/Scripts/Sale/SalesCartManager.cs:84 | FirstOrDefault(p => p.productId == id) returns a listed product with that id, and null exactly when no product has it |
| Products.ByNamePreorder | Assets/Scripts/Sale/SalesCartManager.cs:157 | OrderBy(p => p.productName), with null names first, compares products by a total preorder |
| Sorting.Insert | Assets/Scripts/Inventory/InventoryManager.cs:562 | inserting one element keeps every element and adds exactly that one |
| Sorting.SortBy | Assets/Scripts/Inventory/InventoryManager.cs:562-568 | OrderBy returns a permutation of its input |
| Sorting.InsertSorted | Assets/Scripts/Inventory/InventoryManager.cs:562 | inserting into a sorted sequence under a total preorder keeps it sorted |
| Sorting.SortBySorted | Assets/Scripts/Inventory/InventoryManager.cs:562-568 | OrderBy under a total preorder returns a sorted permutation of its input |
| Sorting.InsertTies | Assets/Scripts/Sale/SalesCartManager.cs:157 | inserting x keeps the order of the elements ranked equal to any c, with x ahead of those it passes |
| Sorting.SortByStable | Assets/Scripts/Sale/SalesCartManager.cs:157 | OrderBy is stable: elements ranked equal come out in their input order |
| Sorting.Filter | Assets/Scripts/Inventory/InventoryManager.cs:550-553 | Where keeps exactly the elements that satisfy the predicate, never more than the input holds |
| Sorting.FilterCount | Assets/Scripts/Inventory/InventoryManager.cs:550-553 | Where keeps every occurrence of an element that satisfies the predicate and none of one that does not |
| Sorting.FilterConcat | Assets/Scripts/Inventory/InventoryManager.cs:550-553 | Where over a concatenation is the concatenation of the filtered parts |
| Sorting.FilterFilter | Assets/Scripts/Inventory/InventoryManager.cs:550-560 | two chained Where calls keep what one Where with the conjunction keeps |
| Sorting.DistinctFromSpec | Assets/Scripts/Inventory/InventoryManager.cs:513-514 | Distinct past a set of seen values keeps each unseen value once, in first-occurrence order |
| Sorting.DistinctSpec | Assets/Scripts/Inventory/InventoryManager.cs:513-514 | Distinct keeps every value of the input, adds none, repeats none, and lists them in the order of their first occurrences |
| Sorting.FlipPreorder | Assets/Scripts/Inventory/InventoryManager.cs:565 | OrderByDescending's reversed comparison is a total preorder too |
| Sorting.NoRepeatsCount | Assets/Scripts/Inventory/InventoryManager.cs:513-514 | a list without repetitions holds each of its values exactly once |
| Sorting.SortedDistinct | Assets/Scripts/Inventory/InventoryManager.cs:513-514 | Distinct().OrderBy() lists every value of the input exactly once, sorted |
| JsonText.EscapeLetter | Assets/Scripts/FptEInvoice/SimpleJSON.cs:323-343 | no escape that Escape writes uses the letter u |
| JsonText.EscapeChar | Assets/Scripts/FptEInvoice/SimpleJSON.cs:318-345 | Escape writes a backslash and a letter for the seven escaped characters and copies every other character |
| JsonText.EscapedConcat | Assets/Scripts/FptEInvoice/SimpleJSON.cs:315-350 | escaping a concatenation is the concatenation of the escapes |
| JsonText.Escape | Assets/Scripts/FptEInvoice/SimpleJSON.cs:315-350 | the builder loop produces the character-by-character escape of the whole text |
| JsonText.EscapedHasNoBareQuote | Assets/Scripts/FptEInvoice/SimpleJSON.cs:839-853 | the string scan over an escaped text followed by a quote stops at that quote and no earlier |
| JsonText.StringEnd | Assets/Scripts/FptEInvoice/SimpleJSON.cs:835-857 | the scan of a string literal stops only at an unescaped quote inside the text |
| JsonText.StringEndShift | Assets/Scripts/FptEInvoice/SimpleJSON.cs:839-846 | a scanned token moves the scan forward by its length |
| JsonText.StringEndAt | Assets/Scripts/FptEInvoice/SimpleJSON.cs:839-853 | scanning from an earlier position passes through every later position it reaches |
| JsonText.StringEndPrefix | Assets/Scripts/FptEInvoice/SimpleJSON.cs:848-852 | text after the closing quote does not change where the string literal ends |
| JsonText.StringEndInside | Assets/Scripts/FptEInvoice/SimpleJSON.cs:835-857 | a string literal embedded at position p ends where it ends on its own, shifted by p |
| JsonText.StringEndOfEscaped | Assets/Scripts/FptEInvoice/SimpleJSON.cs:835-857 | the literal written from an escaped string ends at the quote written after it |
| JsonText.HexDigitValue | Assets/Scripts/FptEInvoice/SimpleJSON.cs:891-893 | a hexadecimal digit has a value below 16 |
| JsonText.HexValueBound | Assets/Scripts/FptEInvoice/SimpleJSON.cs:891-893 | four hexadecimal digits name a value below 16 to the power four |
| JsonText.HexToInt | Assets/Scripts/FptEInvoice/SimpleJSON.cs:892 | Convert.ToInt32(hex, 16) yields a value below 16 to the length of the text |
| JsonText.PowMonotone | Assets/Scripts/FptEInvoice/SimpleJSON.cs:892 | powers of 16 grow with the exponent |
| JsonText.PrependTwice | Assets/Scripts/FptEInvoice/SimpleJSON.cs:861-908 | appending two pieces to the builder is appending their concatenation |
| JsonText.UnEscape | Assets/Scripts/FptEInvoice/SimpleJSON.cs:859-909 | the builder loop of UnEscape computes the recursive reading of the text, including its errors |
| JsonText.UnEscapeEscapedAt | Assets/Scripts/FptEInvoice/SimpleJSON.cs:859-909 | reading an escaped string from any position gives the string back |
| JsonText.UnEscapeEscape | Assets/Scripts/FptEInvoice/SimpleJSON.cs:315-350 | UnEscape inverts Escape on every string |
| Json.FreshKey | Assets/Scripts/FptEInvoice/SimpleJSON.cs:514-515 | the key Guid.NewGuid() supplies for an empty key is non-empty and not yet in the object |
| Json.SetMemberNew | Assets/Scripts/FptEInvoice/SimpleJSON.cs:550-565 | the object indexer's setter appends a member for a key the object does not hold |
| Json.SetMemberExisting | Assets/Scripts/FptEInvoice/SimpleJSON.cs:558-564 | the object indexer's setter on an existing key replaces that member's value in place |
| Json.AddMemberKeys | Assets/Scripts/FptEInvoice/SimpleJSON.cs:512-520 | Add keeps keys unique, adds the given non-empty key and loses none of the old keys |
| Json.NumberEnd | Assets/Scripts/FptEInvoice/SimpleJSON.cs:981-994 | the number scan takes the longest run of number characters from the offset |
| Json.ParseNumber | Assets/Scripts/FptEInvoice/SimpleJSON.cs:981-994 | JSONNumber.Parse always yields a number and never moves the offset back |
| Json.ParseString | Assets/Scripts/FptEInvoice/SimpleJSON.cs:835-857 | a parsed string literal consumes at least its two quotes and stays inside the text |
| Json.ColonAt | Assets/Scripts/FptEInvoice/SimpleJSON.cs:635-640 | the key's colon is found at or after the offset, past white space only |
| Json.ParseWord | Assets/Scripts/FptEInvoice/SimpleJSON.cs:1050-1108 | true, false and null consume at least one character and stay inside the text |
| Json.SkipSpace | Assets/Scripts/FptEInvoice/SimpleJSON.cs:358-368 | ParseElement skips white space up to the first other character |
| Json.SkipSeparators | Assets/Scripts/FptEInvoice/SimpleJSON.cs:616-632 | the container loops skip white space and commas up to the first other character |
| Json.ParseElement | Assets/Scripts/FptEInvoice/SimpleJSON.cs:356-396 | a parsed element consumes at least one character and stays inside the text |
| Json.ParseValue | Assets/Scripts/FptEInvoice/SimpleJSON.cs:361-394 | the dispatch on the first character consumes at least that character |
| Json.ParseMembers | Assets/Scripts/FptEInvoice/SimpleJSON.cs:611-650 | the object loop consumes at least its closing brace |
| Json.ParseMember | Assets/Scripts/FptEInvoice/SimpleJSON.cs:633-645 | one key, colon and value move the offset forward |
| Json.ParseItems | Assets/Scripts/FptEInvoice/SimpleJSON.cs:763-792 | the array loop consumes at least its closing bracket |
| JsonNode.MembersOfConcat | Assets/Scripts/FptEInvoice/SimpleJSON.cs:584-598 | the enumeration order of two runs of dictionary entries is their concatenation |
| JsonNode.KeysOfMembers | Assets/Scripts/FptEInvoice/SimpleJSON.cs:516 | a key is among the enumerated members exactly when the dictionary contains it |
| JsonNode.ReplaceIsSetMember | Assets/Scripts/FptEInvoice/SimpleJSON.cs:516-517 | replacing the value of a present key changes that member in place |
| JsonNode.AddIsSetMember | Assets/Scripts/FptEInvoice/SimpleJSON.cs:516-519 | the dictionary's add-or-replace is the object's SetMember on its members |
| JsonNode.Lookup | Assets/Scripts/FptEInvoice/SimpleJSON.cs:552-556 | a key has a value exactly when some member carries that key |
| JsonNode.FirstWithValue | Assets/Scripts/FptEInvoice/SimpleJSON.cs:538 | the first member whose value equals the node, and none exactly when no value does |
| JsonNode.AddKey | Assets/Scripts/FptEInvoice/SimpleJSON.cs:512-515 | Add keeps a non-empty key, and replaces an empty one by a fresh key |
| JsonNode.ValueText | Assets/Scripts/FptEInvoice/SimpleJSON.cs:74-78 | Value of an absent child is empty, and of a string node is its text |
| JsonNode.AbsentReadIsEmpty | Assets/Scripts/FptEInvoice/SimpleJSON.cs:550-557 | reading an absent key yields a node whose Value is empty |
| JsonNode.ObjectNode.Count | Assets/Scripts/FptEInvoice/SimpleJSON.cs:507-510 | Count is the number of members |
| JsonNode.ObjectNode.constructor | Assets/Scripts/FptEInvoice/SimpleJSON.cs:481-484 | a new object has no members |
| JsonNode.ObjectNode.Get | Assets/Scripts/FptEInvoice/SimpleJSON.cs:550-557 | the indexer's getter returns the value of the member with that key |
| JsonNode.ObjectNode.Set | Assets/Scripts/FptEInvoice/SimpleJSON.cs:558-564 | the indexer's setter replaces a present key's value in place, adds one member for a new key, and the key then reads back the value |
| JsonNode.ObjectNode.Add | Assets/Scripts/FptEInvoice/SimpleJSON.cs:512-520 | Add stores under the given key, or under a fresh key when the key is empty, and then has one member more |
| JsonNode.ObjectNode.Remove | Assets/Scripts/FptEInvoice/SimpleJSON.cs:522-525 | Remove(key) drops that key's member, keeps the others in order, and the key no longer reads |
| JsonNode.ObjectNode.RemoveAt | Assets/Scripts/FptEInvoice/SimpleJSON.cs:527-532 | Remove(index) out of range is a no-op, and in range drops the member at that enumeration position |
| JsonNode.ObjectNode.RemoveNode | Assets/Scripts/FptEInvoice/SimpleJSON.cs:534-548 | Remove(node) fails with "Unable to remove non-existing node!" exactly when no member holds the node, and otherwise drops the first member that does, keeping the others in order |
| JsonNode.GetIsLookup | Assets/Scripts/FptEInvoice/SimpleJSON.cs:552-556 | the dictionary's lookup agrees with the members' Lookup |
| JsonNode.LookupAfter | Assets/Scripts/FptEInvoice/SimpleJSON.cs:552-556 | members before the first one with the key do not affect the lookup |
| JsonNode.GetAfterPut | Assets/Scripts/FptEInvoice/SimpleJSON.cs:558-564 | a key the dictionary holds reads back its value through the members |
| JsonNode.GetNone | Assets/Scripts/FptEInvoice/SimpleJSON.cs:552-556 | a key the dictionary lacks is not found among the members |
| JsonNode.RemoveFirstCount | Assets/Scripts/FptEInvoice/SimpleJSON.cs:697-700 | List.Remove takes away exactly one occurrence of a held node and leaves the list alone otherwise |
| JsonNode.ArrayNode.constructor | Assets/Scripts/FptEInvoice/SimpleJSON.cs:654-656 | a new array is empty |
| JsonNode.ArrayNode.Add | Assets/Scripts/FptEInvoice/SimpleJSON.cs:685-688 | Add appends the item |
| JsonNode.ArrayNode.RemoveAt | Assets/Scripts/FptEInvoice/SimpleJSON.cs:690-695 | Remove(index) out of range is a no-op, and in range drops that item |
| JsonNode.ArrayNode.RemoveNode | Assets/Scripts/FptEInvoice/SimpleJSON.cs:697-700 | Remove(node) removes the first item equal to the node, if any |
| JsonNode.ArrayNode.Get | Assets/Scripts/FptEInvoice/SimpleJSON.cs:702-709 | the indexer's getter returns the item in range and nothing out of range |
| JsonNode.ArrayNode.Set | Assets/Scripts/FptEInvoice/SimpleJSON.cs:710-716 | the indexer's setter replaces the item in range and appends out of range |
| JsonLayout.SaveWidth | Assets/Scripts/FptEInvoice/SimpleJSON.cs:567-604 | the text SaveToStream writes for a tree has the length Width computes member by member |
| JsonLayout.SaveStarts | Assets/Scripts/FptEInvoice/SimpleJSON.cs:574-604 | every saved element starts with a character ParseElement dispatches on |
| JsonLayout.LaidSave | Assets/Scripts/FptEInvoice/SimpleJSON.cs:574-604 | the saved text of a reparsable tree places each of its elements, separators and keys where the parser looks for them |
| JsonLayout.LaidSaveItems | Assets/Scripts/FptEInvoice/SimpleJSON.cs:726-755 | the saved entries of an array and its closing bracket are laid out entry by entry |
| JsonLayout.LaidSaveMembers | Assets/Scripts/FptEInvoice/SimpleJSON.cs:574-604 | the saved members of an object and its closing brace are laid out member by member |
| JsonLayout.SeparatorChars | Assets/Scripts/FptEInvoice/SimpleJSON.cs:586-595 | the commas, newlines and tab written between entries are all characters the container parsers skip |
| JsonRoundTrip.SkipSeparatorsRun | Assets/Scripts/FptEInvoice/SimpleJSON.cs:616-632 | a run of separators is skipped as a whole |
| JsonRoundTrip.NumberEndRun | Assets/Scripts/FptEInvoice/SimpleJSON.cs:981-994 | JSONNumber.Parse stops exactly at the end of a written number |
| JsonRoundTrip.ParseWordAt | Assets/Scripts/FptEInvoice/SimpleJSON.cs:1050-1108 | true, false and null as written are read back as the same value |
| JsonRoundTrip.ParseNumberAt | Assets/Scripts/FptEInvoice/SimpleJSON.cs:964-994 | a number written by the number format is read back as the same value |
| JsonRoundTrip.ParseStringAt | Assets/Scripts/FptEInvoice/SimpleJSON.cs:828-857 | a quoted escaped string is read back as the original string, right after its closing quote |
| JsonRoundTrip.ElementOpensArray | Assets/Scripts/FptEInvoice/SimpleJSON.cs:371-372 | ParseElement on a bracket reads an array |
| JsonRoundTrip.ElementOpensObject | Assets/Scripts/FptEInvoice/SimpleJSON.cs:369-370 | ParseElement on a brace reads an object |
| JsonRoundTrip.ElementWord | Assets/Scripts/FptEInvoice/SimpleJSON.cs:387-391 | ParseElement on n, t or f reads a literal word |
| JsonRoundTrip.ElementNumber | Assets/Scripts/FptEInvoice/SimpleJSON.cs:375-386 | ParseElement on a minus sign or digit reads a number |
| JsonRoundTrip.ElementString | Assets/Scripts/FptEInvoice/SimpleJSON.cs:373-374 | ParseElement on a quote reads a string |
| JsonRoundTrip.ItemsStep | Assets/Scripts/FptEInvoice/SimpleJSON.cs:785-787 | the array loop appends each element it reads and goes on after it |
| JsonRoundTrip.MembersStep | Assets/Scripts/FptEInvoice/SimpleJSON.cs:633-645 | the object loop adds each key and value it reads and goes on after them |
| JsonRoundTrip.AddNextMember | Assets/Scripts/FptEInvoice/SimpleJSON.cs:512-520 | adding a fresh non-empty key appends that member |
| JsonRoundTrip.ParseLaid | Assets/Scripts/FptEInvoice/SimpleJSON.cs:356-396 | an element laid out at an offset is read back as that element, ending where its text ends |
| JsonRoundTrip.ParseArrayLaid | Assets/Scripts/FptEInvoice/SimpleJSON.cs:763-792 | an array laid out at an offset is read back as that array |
| JsonRoundTrip.ParseObjectLaid | Assets/Scripts/FptEInvoice/SimpleJSON.cs:611-650 | an object laid out at an offset is read back as that object |
| JsonRoundTrip.ParseItemsLaid | Assets/Scripts/FptEInvoice/SimpleJSON.cs:763-792 | the array loop reads back every laid-out entry in order |
| JsonRoundTrip.ParseMembersLaid | Assets/Scripts/FptEInvoice/SimpleJSON.cs:611-650 | the object loop reads back every laid-out member in order |
| JsonRoundTrip.ParseSave | Assets/Scripts/FptEInvoice/SimpleJSON.cs:398-402 | JSONNode.Parse inverts SaveToJSON in both modes for every tree whose keys are distinct and non-empty and whose numbers the number format reads back |
| SlotDict.SlotOf | Assets/Scripts/FptEInvoice/SimpleJSON.cs:483 | the slot found for a key holds that key, and none is found exactly when no slot holds it |
| SlotDict.Put | Assets/Scripts/FptEInvoice/SimpleJSON.cs:516-519 | the dictionary's add-or-replace keeps keys unique and the free list exact |
| SlotDict.Remove | Assets/Scripts/FptEInvoice/SimpleJSON.cs:524 | Dictionary.Remove keeps keys unique and the free list exact |
| SlotDict.PutExisting | Assets/Scripts/FptEInvoice/SimpleJSON.cs:516-517 | setting a present key replaces its value at its enumeration position and keeps the count |
| SlotDict.PutIntoFree | Assets/Scripts/FptEInvoice/SimpleJSON.cs:519-524 | a new key added after a removal fills a freed slot: the entry appears once and the count grows by one |
| SlotDict.PutAppend | Assets/Scripts/FptEInvoice/SimpleJSON.cs:519 | a new key added to a dictionary without removals is enumerated last |
| SlotDict.PutNew | Assets/Scripts/FptEInvoice/SimpleJSON.cs:519 | adding a new key adds exactly that entry and grows the count by one |
| SlotDict.PutNoRemovals | Assets/Scripts/FptEInvoice/SimpleJSON.cs:516-519 | without removals, add-or-replace is the members' AddMember and leaves no free slot |
| SlotDict.RemoveItems | Assets/Scripts/FptEInvoice/SimpleJSON.cs:522-525 | Remove takes out exactly the key's entry and keeps the others in enumeration order |
| SlotDict.GetPutSame | Assets/Scripts/FptEInvoice/SimpleJSON.cs:552-555 | a key reads back the value just stored under it |
| SlotDict.GetPutOther | Assets/Scripts/FptEInvoice/SimpleJSON.cs:552-555 | storing under one key leaves every other key's value alone |
| SlotDict.GetRemove | Assets/Scripts/FptEInvoice/SimpleJSON.cs:522-525 | a removed key no longer reads, and other keys read as before |
| SlotDict.ItemsUnique | Assets/Scripts/FptEInvoice/SimpleJSON.cs:584 | the enumeration of a dictionary lists every key once |
| SlotDict.WithoutAt | Assets/Scripts/FptEInvoice/SimpleJSON.cs:527-532 | dropping the key enumerated at a position drops exactly that position |
| SlotDict.GetItems | Assets/Scripts/FptEInvoice/SimpleJSON.cs:552-584 | TryGetValue finds exactly the pairs the enumeration lists |
| SlotDict.GetItemsAll | Assets/Scripts/FptEInvoice/SimpleJSON.cs:552-584 | TryGetValue and the enumeration agree on every key |
| SlotDict.PutEntry | Assets/Scripts/FptEInvoice/SimpleJSON.cs:516-519 | after add-or-replace the entries are the new pair and the old entries of other keys |
| SlotDict.RemoveEntry | Assets/Scripts/FptEInvoice/SimpleJSON.cs:522-525 | after Remove the entries are the old entries of other keys |
| SlotDict.GetToMap | Assets/Scripts/FptEInvoice/SimpleJSON.cs:552-555 | TryGetValue agrees with the dictionary seen as a finite map |
| SlotDict.ItemsInMap | Assets/Scripts/FptEInvoice/SimpleJSON.cs:584 | the enumeration lists exactly the pairs of the finite map |
| SlotDict.ToMapPutAt | Assets/Scripts/FptEInvoice/SimpleJSON.cs:516-519 | as a finite map, add-or-replace is a map update |
| SlotDict.ToMapRemoveAt | Assets/Scripts/FptEInvoice/SimpleJSON.cs:522-525 | as a finite map, Remove is key removal |
| SlotDict.RemoveAbsent | Assets/Scripts/FptEInvoice/SimpleJSON.cs:522-525 | removing an absent key changes nothing |
| SlotDict.ReplaceInSlot | Assets/Scripts/FptEInvoice/SimpleJSON.cs:517 | overwriting the slot that holds a key replaces its value in place |
| SlotDict.ClearSlot | Assets/Scripts/FptEInvoice/SimpleJSON.cs:524 | emptying the slot that holds a key drops exactly its entry |
| SlotDict.FillEmptySlot | Assets/Scripts/FptEInvoice/SimpleJSON.cs:519 | storing a new key in an empty slot adds exactly that entry |
| FptInvoice.FillAppends | Assets/Scripts/FptEInvoice/FptInvoiceData.cs:101-181 | assigning keys the object does not hold yet appends one member per assignment whose guard holds, in order |
| FptInvoice.FillStep | Assets/Scripts/FptEInvoice/FptInvoiceData.cs:106 | one guarded assignment of a new key appends that member or nothing |
| FptInvoice.PresentNoKey | Assets/Scripts/FptEInvoice/FptInvoiceData.cs:101-181 | only keys of the assignment table can occur in the object |
| FptInvoice.PresentLookup | Assets/Scripts/FptEInvoice/FptInvoiceData.cs:101-181 | with distinct keys, each key reads back what its guarded assignment wrote, or nothing |
| FptInvoice.ToObjectIsPresent | Assets/Scripts/FptEInvoice/FptInvoiceData.cs:101-181 | the object ToJsonNode returns holds exactly the members whose guards hold, in assignment order |
| FptInvoice.ToObjectReads | Assets/Scripts/FptEInvoice/FptInvoiceData.cs:101-181 | every key of the table reads back its guarded value and no other key occurs |
| FptInvoice.ItemKeysDistinct | Assets/Scripts/FptEInvoice/FptInvoiceItem.cs:44-71 | the item writes 26 distinct keys |
| FptInvoice.ItemJsonFields | Assets/Scripts/FptEInvoice/FptInvoiceItem.cs:41-74 | each item key reads back its guarded value, and no key outside the table is written |
| FptInvoice.ItemFieldReads | Assets/Scripts/FptEInvoice/FptInvoiceItem.cs:41-74 | any single item key reads back its guarded value |
| FptInvoice.ItemLineKey | Assets/Scripts/FptEInvoice/FptInvoiceItem.cs:44 | "line" is written iff the line number is not 0 |
| FptInvoice.ItemStringKeys | Assets/Scripts/FptEInvoice/FptInvoiceItem.cs:55-62 | the code, name, unit and vrt strings are written iff they are not null, an empty name included |
| FptInvoice.ItemZeroAmountsOmitted | Assets/Scripts/FptEInvoice/FptInvoiceItem.cs:60-67 | a zero price, quantity or total is left out and a non-zero one is written |
| FptInvoice.HasDataIff | Assets/Scripts/FptEInvoice/FptInvoiceData.cs:195-200 | HasData is false exactly when all five fields are null or empty |
| FptInvoice.AdjJsonKeys | Assets/Scripts/FptEInvoice/FptInvoiceData.cs:202-211 | the related-invoice object writes each of its five strings iff it is not null |
| FptInvoice.NewInvoiceBody | Assets/Scripts/FptEInvoice/FptInvoiceData.cs:94-98 | a new invoice body has an empty item list, no adjustment, no strings and zero totals |
| FptInvoice.ItemsJson | Assets/Scripts/FptEInvoice/FptInvoiceData.cs:158-166 | the items array has one element per item, each the item's own JSON, in list order |
| FptInvoice.InvKeysDistinct | Assets/Scripts/FptEInvoice/FptInvoiceData.cs:106-179 | the invoice body writes distinct keys across its five groups |
| FptInvoice.InvJsonFields | Assets/Scripts/FptEInvoice/FptInvoiceData.cs:101-182 | each invoice key reads back its guarded value, and no key outside the table is written |
| FptInvoice.InvFieldReads | Assets/Scripts/FptEInvoice/FptInvoiceData.cs:101-182 | any single invoice key reads back its guarded value |
| FptInvoice.InvGeneralReads | Assets/Scripts/FptEInvoice/FptInvoiceData.cs:106-115 | the general strings read back their guarded values |
| FptInvoice.InvTagReads | Assets/Scripts/FptEInvoice/FptInvoiceData.cs:118-123 | the int? routing tags read back their guarded values |
| FptInvoice.InvPartyReads | Assets/Scripts/FptEInvoice/FptInvoiceData.cs:126-138 | the seller and buyer strings read back their guarded values |
| FptInvoice.InvExtraReads | Assets/Scripts/FptEInvoice/FptInvoiceData.cs:141-166 | the adjustment, petroleum and items entries read back their guarded values |
| FptInvoice.InvTotalReads | Assets/Scripts/FptEInvoice/FptInvoiceData.cs:170-179 | the totals read back their guarded values |
| FptInvoice.InvGeneralKeysWritten | Assets/Scripts/FptEInvoice/FptInvoiceData.cs:106-108 | type, form and serial are written iff not null, so an empty serial is still written |
| FptInvoice.InvPartyKeysWritten | Assets/Scripts/FptEInvoice/FptInvoiceData.cs:126-135 | stax, bname, buyer and idnumber are written iff not null |
| FptInvoice.InvTagKeysWritten | Assets/Scripts/FptEInvoice/FptInvoiceData.cs:118-123 | aun, class, type_ref and inv_paper are written iff they have a value |
| FptInvoice.InvAdjKey | Assets/Scripts/FptEInvoice/FptInvoiceData.cs:141-144 | "adj" is written iff the adjustment is not null and has data, and then holds the adjustment's object |
| FptInvoice.InvPetrolKeys | Assets/Scripts/FptEInvoice/FptInvoiceData.cs:147-155 | each petroleum string is written iff it is not null |
| FptInvoice.InvItemsKey | Assets/Scripts/FptEInvoice/FptInvoiceData.cs:158-166 | "items" is written iff the item list is non-null and non-empty, and then holds one element per item |
| FptInvoice.InvTotalsAlways | Assets/Scripts/FptEInvoice/FptInvoiceData.cs:170-175 | the six required totals are always written, zero included |
| FptInvoice.InvOptionalTotals | Assets/Scripts/FptEInvoice/FptInvoiceData.cs:177-179 | tradeamount and discount are written iff not zero, and word iff not null |
| FptInvoice.ItemsArray | Assets/Scripts/FptEInvoice/FptInvoiceData.cs:158-165 | the foreach over the items builds the array ItemsJson describes |
| FptInvoice.NewInvoiceData | Assets/Scripts/FptEInvoice/FptInvoiceData.cs:13-18 | a new invoice document has the language "vi" and an empty item list |
| FptInvoice.DataJsonKeys | Assets/Scripts/FptEInvoice/FptInvoiceData.cs:21-27 | the root object has exactly the keys "lang" then "inv", holding the language and the invoice body's object |
| FptApiClient.Padding | Assets/Scripts/FptEInvoice/FptEInvoiceApiClient.cs:351-355 | DecodeBase64Url pads with at most two '=' so that a length not 1 modulo 4 becomes a multiple of 4, and pads nothing for lengths 0 and 1 modulo 4 |
| FptApiClient.NormalizeBase64Url | Assets/Scripts/FptEInvoice/FptEInvoiceApiClient.cs:348-355 | the URL alphabet is mapped back character by character, the padding follows, and no '-' or '_' remains |
| FptApiClient.ToBase64Url | Assets/Scripts/FptEInvoice/FptEInvoiceApiClient.cs:350 | the URL form of a Base64 body has the same length and no '+' or '/' |
| FptApiClient.NormalizeUrlForm | Assets/Scripts/FptEInvoice/FptEInvoiceApiClient.cs:348-355 | normalising the URL form of a padded Base64 text, padding stripped, restores the text and its padding |
| FptApiClient.SplitAround | Assets/Scripts/FptEInvoice/FptEInvoiceApiClient.cs:169 | splitting at a separator splits each side independently |
| FptApiClient.SplitPiece | Assets/Scripts/FptEInvoice/FptEInvoiceApiClient.cs:169 | a piece without the separator splits to itself |
| FptApiClient.CompactParts | Assets/Scripts/FptEInvoice/FptEInvoiceApiClient.cs:169-171 | header.payload.signature without inner dots splits into exactly its three parts |
| FptApiClient.TruncateToLong | Assets/Scripts/FptEInvoice/SimpleJSON.cs:954-957 | the (long) cast of a number lies in the 64-bit range and is exact on whole numbers in range |
| FptApiClient.AsLong | Assets/Scripts/FptEInvoice/FptEInvoiceApiClient.cs:191 | json["exp"].AsLong lies in the 64-bit range and is 0 for a missing claim |
| FptApiClient.ErrorDetails | Assets/Scripts/FptEInvoice/FptEInvoiceApiClient.cs:230 | errorDetails is the response body, or the request's error string when the body is empty |
| FptApiClient.ErrorDetail | Assets/Scripts/FptEInvoice/FptEInvoiceApiClient.cs:257-269 | the detail shown for a protocol error exists exactly when errorDetails does, and is errorDetails itself when it does not parse |
| FptApiClient.FailureMessage | Assets/Scripts/FptEInvoice/FptEInvoiceApiClient.cs:233-281 | a 429 shows the caller's message (none during sign-in), and every other failure shows some message |
| FptApiClient.FailureClassification | Assets/Scripts/FptEInvoice/FptEInvoiceApiClient.cs:233-281 | a failed request is classified by 429 first, then connection error, then protocol error 401, 5xx or other with the parsed detail, then the unexpected-error message |
| FptApiClient.MessageMemberDetail | Assets/Scripts/FptEInvoice/FptEInvoiceApiClient.cs:265-266 | an error body that is an object with a non-empty "message" string shows that string |
| FptApiClient.ErrorMemberDetail | Assets/Scripts/FptEInvoice/FptEInvoiceApiClient.cs:267 | an error body without "message" but with a non-empty "error" string shows that string |
| FptApiClient.MessageBodyDetail | Assets/Scripts/FptEInvoice/FptEInvoiceApiClient.cs:262-266 | the error body {"message": m}, as the JSON writer prints it, shows m |
| FptApiClient.ErrorBodyDetail | Assets/Scripts/FptEInvoice/FptEInvoiceApiClient.cs:262-267 | the error body {"error": e}, as the JSON writer prints it, shows e |
| FptApiClient.TokenAccepted | Assets/Scripts/FptEInvoice/FptEInvoiceApiClient.cs:166-226 | a successful sign-in response is accepted iff it has a payload object, and then the whole response is the token and the payload's exp its expiry; the empty-token popup never shows |
| FptApiClient.CompactTokenAccepted | Assets/Scripts/FptEInvoice/FptEInvoiceApiClient.cs:169-204 | a compact token whose payload decodes to an object with a 64-bit exp claim signs in with that token and expiry |
| FptApiClient.SignInGuards | Assets/Scripts/FptEInvoice/FptEInvoiceApiClient.cs:114-161 | sign-in reports missing credentials exactly when the cached shop or its user or password is missing, succeeds only online with a successful response whose body is the token, and shows no popup on 429 |
| FptApiClient.StoredTokenReloads | Assets/Scripts/FptEInvoice/FptEInvoiceApiClient.cs:469-491 | a token stored with a signed-in user is cached and read back from PlayerPrefs with its expiry after a restart |
| FptApiClient.Pow2 | Assets/Scripts/FptEInvoice/FptEInvoiceApiClient.cs:339 | each doubling factor is at least 1 |
| FptApiClient.RetryWaits | Assets/Scripts/FptEInvoice/FptEInvoiceApiClient.cs:324-340 | the k-th wait is 200 ms times 2 to the k |
| FptApiClient.RetrySchedule | Assets/Scripts/FptEInvoice/FptEInvoiceApiClient.cs:323-340 | three retries wait 200, 400 and 800 ms, each wait double the previous |
| FptApiClient.FirstSuccess | Assets/Scripts/FptEInvoice/FptEInvoiceApiClient.cs:326-341 | the first attempt from a position that signs in, and none exactly when no later attempt signs in |
| FptApiClient.RefreshOf | Assets/Scripts/FptEInvoice/FptEInvoiceApiClient.cs:296-345 | a refresh that signed in did so at one of the given attempts |
| FptApiClient.RefreshStep | Assets/Scripts/FptEInvoice/FptEInvoiceApiClient.cs:326-340 | an attempt before the first success fails, and the first success ends the loop |
| FptApiClient.RefreshExhausted | Assets/Scripts/FptEInvoice/FptEInvoiceApiClient.cs:343-344 | when no attempt signs in the refresh gives up with null |
| FptApiClient.FreshTokenReused | Assets/Scripts/FptEInvoice/FptEInvoiceApiClient.cs:306-318 | no sign-in is tried iff the cached token is non-empty and expires more than an hour after now, and then that token is returned without waiting |
| FptApiClient.RefreshTakesFirstSuccess | Assets/Scripts/FptEInvoice/FptEInvoiceApiClient.cs:323-344 | a refresh returns the token of the first attempt that signs in, after one wait per earlier failure, and caches it; after three failures it returns null having waited 200, 400 and 800 ms, cache unchanged |
| FptApiClient.ApiClient.constructor | Assets/Scripts/FptEInvoice/FptEInvoiceApiClient.cs:1-92 | the client holds the sign-in URL and the signed-in user |
| FptApiClient.ApiClient.UpdateTokenInFirestoreAndCache | Assets/Scripts/FptEInvoice/FptEInvoiceApiClient.cs:469-498 | the new token and expiry replace the cached ones and are saved for the user, leaving the package and global configuration alone |
| FptApiClient.ApiClient.SignIn | Assets/Scripts/FptEInvoice/FptEInvoiceApiClient.cs:97-293 | a sign-in that succeeds stores the token and expiry it read, and any other outcome leaves the session cache as it was |
| FptApiClient.ApiClient.GetValidAccessToken | Assets/Scripts/FptEInvoice/FptEInvoiceApiClient.cs:296-345 | returns the token, attempt count, waits and new cache the refresh specification gives |
| FptApiClient.ApiClient.SendApiRequest | Assets/Scripts/FptEInvoice/FptEInvoiceApiClient.cs:362-462 | offline or without a token nothing is sent and the matching message returns; otherwise a body is attached exactly when the payload is neither null nor JSONNull (which SimpleJSON's == equates with null), it goes out as compact JSON, success returns the body, and failure returns the classified message |
| ShopRecords.FromUnixSeconds | Assets/Scripts/setting/ShopSessionData.cs:107 | Timestamp.FromDateTime(DateTimeOffset.FromUnixTimeSeconds(s).UtcDateTime) is a valid timestamp of exactly s seconds |
| ShopSession.GetString | Assets/Scripts/setting/ShopSessionData.cs:74-100 | PlayerPrefs.GetString returns the stored string under the key, and the default when the key is absent |
| ShopSession.ReadLicense | Assets/Scripts/setting/ShopSessionData.cs:102-122 | a license date is accepted only as a valid whole-second timestamp after the epoch |
| ShopSession.Session.constructor | Assets/Scripts/setting/ShopSessionData.cs:14-26 | a new session caches nothing and sees the store an earlier run left |
| ShopSession.Session.InitializePackageConfig | Assets/Scripts/setting/ShopSessionData.cs:34-41 | only the first non-null package configuration sticks, and nothing else changes |
| ShopSession.Session.SetGlobalAppConfig | Assets/Scripts/setting/ShopSessionData.cs:47-51 | the global configuration is replaced, and nothing else changes |
| ShopSession.Session.SaveShopDataToPlayerPrefs | Assets/Scripts/setting/ShopSessionData.cs:134-168 | the store becomes the old store with the session keys written from the shop, and the caches are untouched |
| ShopSession.Session.SetCachedShopSettings | Assets/Scripts/setting/ShopSessionData.cs:59-64 | the user id and shop are cached and the shop is saved to the store |
| ShopSession.Session.LoadFromPlayerPrefs | Assets/Scripts/setting/ShopSessionData.cs:70-129 | without a stored user nothing is loaded and the result is false; with one, the user id and the shop read from the store are cached and the result is the license check's; the store is not changed |
| ShopSession.Session.ClearAllData | Assets/Scripts/setting/ShopSessionData.cs:173-206 | the caches and global configuration are cleared and exactly the session keys are deleted from the store |
| ShopSession.SavedKeys | Assets/Scripts/setting/ShopSessionData.cs:136-164 | saving writes the user id, leaves keys outside the session alone, and writes a license date |
| ShopSession.LoadedShopReads | Assets/Scripts/setting/ShopSessionData.cs:76-100 | each string property of a loaded shop is the stored string or "" |
| ShopSession.SavedShopContact | Assets/Scripts/setting/ShopSessionData.cs:137-138 | saving stores the shop's name and phone number under their keys |
| ShopSession.SavedShopStrings | Assets/Scripts/setting/ShopSessionData.cs:139-143 | saving stores the tax id, industry, provider and e-invoice user under their keys |
| ShopSession.SavedInvoiceStrings | Assets/Scripts/setting/ShopSessionData.cs:144-153 | saving stores the e-invoice password, serial, form, type, token and package under their keys |
| ShopSession.SaveLoadStrings | Assets/Scripts/setting/ShopSessionData.cs:74-153 | every string property saved comes back on load, a null one as "" |
| ShopSession.SaveLoadExpiry | Assets/Scripts/setting/ShopSessionData.cs:90-150 | the token expiry time comes back exactly |
| ShopSession.SaveLoadLicense | Assets/Scripts/setting/ShopSessionData.cs:102-158 | a license date after the epoch comes back to the second and the load succeeds; one at or before the epoch comes back as the minimum date and the load fails |
| ShopSession.SaveLoadRoundTrip | Assets/Scripts/setting/ShopSessionData.cs:59-129 | a shop with all strings set and a license after the epoch comes back unchanged, up to sub-second precision, for the same user |
| ShopSession.LoadFromEmptyStore | Assets/Scripts/setting/ShopSessionData.cs:72-129 | with nothing stored no user is found and the load fails |
| Auth.CreateAccountSpec | Assets/Scripts/Login/AuthManger.cs:251-292 | an account is registered exactly when the trimmed fields are filled, the password has at least 6 characters, the email is valid, both passwords agree and the device is online, and each refusal implies that every earlier check passed |
| Auth.LoginSpec | Assets/Scripts/Login/AuthManger.cs:436-457 | a sign-in starts exactly when the trimmed email and the password are non-empty and the device is online, with the trimmed email; otherwise a missing field or offline is reported |
| Auth.LoginMessageHidesWhichCredential | Assets/Scripts/Login/AuthManger.cs:523-549 | the login popup says "wrong email or password" exactly for an unknown user or a wrong password |
| Auth.LoadedShopSpec | Assets/Scripts/Login/AuthManger.cs:569-634 | the cached shop always has a package; a new user gets the default trial shop with no name, and a stored shop keeps every field except a MinValue license end, which runs 14 more days, and an empty package, which becomes Basic |
| Auth.DestinationSpec | Assets/Scripts/Login/AuthManger.cs:637-676 | a signed-in user never lands on the login scene, and reaches the homepage exactly when the shop has a name and the license has not ended |
| Auth.NewShopGoesToSettings | Assets/Scripts/Login/AuthManger.cs:607-657 | a shop created at sign-in has no name, so the user is sent to the shop settings |
| Auth.AuthManager.constructor | Assets/Scripts/Login/AuthManger.cs:1-99 | a new manager has no user, no shop writes and shows the login scene |
| Auth.AuthManager.LoadAndCacheShopData | Assets/Scripts/Login/AuthManger.cs:569-634 | the user and the loaded shop are cached and saved to PlayerPrefs, a default shop document is written only when none is stored, and the global and package configs are left as they are |
| Auth.AuthManager.RegisterUser | Assets/Scripts/Login/AuthManger.cs:313-400 | a created account writes the default trial shop, signs out and shows the success popup; a failure shows the error popup and changes nothing |
| Auth.AuthManager.PerformInitialRedirection | Assets/Scripts/Login/AuthManger.cs:637-676 | without a user the login panel shows; with one the scene is the routing destination, and the edit flag is set exactly when that is the shop settings |
| Auth.AuthManager.ProcessLoginState | Assets/Scripts/Login/AuthManger.cs:189-218 | the PlayerPrefs load throws exactly when a user is stored and the load fails, and then nothing else changes; the cache is used exactly when it belongs to the current user, loads successfully and the user did not just log out, and then routes to the destination of the loaded shop; otherwise the logout flag is cleared and a signed-in user's shop is loaded from Firestore, cached and saved before routing, while no user goes to the login scene; the edit flag is set exactly when a signed-in user is routed to shop settings, and the configs are kept |
| Auth.AuthManager.AuthStateChanged | Assets/Scripts/Login/AuthManger.cs:220-236 | a signed-in user turning into none clears the session, the global config and the PlayerPrefs keys, sets the logout flag and shows the login panel; any other change only records the user and keeps the cached user, shop and global config; the package config is kept in both cases |
| Auth.AuthManager.SignOutAndReturnToLogin | Assets/Scripts/Login/AuthManger.cs:678-697 | sign-out clears the user, the session, the global config and the PlayerPrefs keys, keeps the package config, sets the logout flag and loads the login scene |
| Auth.RepairedLicenseReachesHome | Assets/Scripts/Login/AuthManger.cs:585-659 | a stored, named shop whose license end is MinValue is repaired to two more weeks and so reaches the homepage |
| Auth.MissingLicenseGoesToSettings | Assets/Scripts/Login/AuthManger.cs:585-659 | a stored, named shop whose document has no license end reads it as the epoch, which is not repaired, so the user is sent to the license screen |
| ShopSetting.Later | Assets/Scripts/setting/ShopSettingManager.cs:472-475 | the later of two timestamps is one of them and before neither |
| ShopSetting.ExtensionBase | Assets/Scripts/setting/ShopSettingManager.cs:462-475 | an extension counts from the current end or from now, whichever is later |
| ShopSetting.NewLicenseEndSpec | Assets/Scripts/setting/ShopSettingManager.cs:462-476 | a license never loses time: the new end is the duration after now, or after the old end when that is not past, and so at least that far after both |
| ShopSetting.JudgeSpec | Assets/Scripts/setting/ShopSettingManager.cs:420-460 | a voucher is accepted exactly when it exists, its duration, usage type and package name can be read, it is an unused single-use voucher (whose isUsed flag can be read) or a multi-use voucher this shop has not used, and it grants a positive number of days; a missing voucher, an unreadable field (GetValue throws) and an unknown usage type are reported exactly in those cases, and a bad duration only after the usage checks passed |
| ShopSetting.VerdictSpec | Assets/Scripts/setting/ShopSettingManager.cs:420-477 | for a current time inside DateTime's range, a voucher the checks reject keeps that rejection; one they accept is refused exactly when the new end date (the later of the current end and now, plus the voucher's days) lies past DateTime.MaxValue, where AddDays throws, and is accepted otherwise |
| ShopSetting.ExtendedSpec | Assets/Scripts/setting/ShopSettingManager.cs:476-482 | an accepted voucher changes only the license end and, when it names one, the package, and makes the homepage visible |
| ShopSetting.BatchSpec | Assets/Scripts/setting/ShopSettingManager.cs:484-514 | the batch first moves the license end, writes the package exactly when the voucher names one, marks a single-use voucher used and records a multi-use one for this shop |
| ShopSetting.ShopSettingManager.constructor | Assets/Scripts/setting/ShopSettingManager.cs:143-229 | a manager starts with the session's user and cached shop, nothing committed and the voucher controls enabled |
| ShopSetting.ShopSettingManager.CheckLicenseAndSetHomepageButtonState | Assets/Scripts/setting/ShopSettingManager.cs:373-393 | the homepage button is visible exactly when a shop is cached and its license end is not before now |
| ShopSetting.ShopSettingManager.OnApplyVoucherButtonClicked | Assets/Scripts/setting/ShopSettingManager.cs:395-538 | a missing session and an empty trimmed code are refused exactly in those cases; otherwise a voucher that is missing, unreadable, rejected or whose new end date would pass DateTime.MaxValue changes nothing, and an accepted one extends the cached shop, and on a successful commit records the batch, saves the session and PlayerPrefs, clears the code and refreshes the homepage button, while a failed commit records nothing; the controls are re-enabled in every case |
| ShopSetting.ShopSettingManager.RedeemVoucher | Assets/Scripts/setting/ShopSettingManager.cs:414-531 | the voucher part of the handler as written: every refusal (missing, unreadable or rejected voucher, end date out of range) changes nothing; an accepted voucher extends the cached shop before the commit, so it stays extended (and so does the session's shop when they are the same object) even when the commit fails |
| ShopSetting.ShopSettingManager.RedeemVoucherCommittingFirst | Assets/Scripts/setting/ShopSettingManager.cs:476-525 | the corrected order: the cached shop, the session and PlayerPrefs change only after a successful commit of an accepted voucher, and a failed commit or any refusal changes nothing |
| ShopSetting.UncommittedExtensionOpensHomepage | Assets/Scripts/setting/ShopSettingManager.cs:373-516 | a shop whose license has ended is extended in memory by a voucher document that is accepted, so after a failed commit the homepage button check lets the user in although nothing was saved |
| ShopSetting.AppliedOpensHomepage | Assets/Scripts/setting/ShopSettingManager.cs:478-525 | after a voucher document that is accepted is applied, the homepage button is visible |
| PackagePanel.Set | Assets/Scripts/setting/PackagePanelController.cs:119-145 | setting one toggle gives it the new value and leaves the other two alone |
| PackagePanel.Selected | Assets/Scripts/setting/PackagePanelController.cs:130-165 | a package is selected exactly when its toggle is the only one on |
| PackagePanel.Matching | Assets/Scripts/setting/PackagePanelController.cs:119-124 | a stored package type matches a toggle exactly when it is "Basic", "Advanced" or "Pro", and then it is that package's name |
| PackagePanel.PackagePanelController.constructor | Assets/Scripts/setting/PackagePanelController.cs:42-48 | a fresh panel keeps the prefab's toggles, has no listeners, no callbacks and no writes |
| PackagePanel.PackagePanelController.SetIsOn | Assets/Scripts/setting/PackagePanelController.cs:138-167 | setting a toggle to its current value fires nothing; before the listeners exist it only changes that toggle; afterwards turning one on, or turning off the only one on, leaves exactly that toggle on, shows its label and puts its package in the edited shop, and turning off one of several only turns it off |
| PackagePanel.PackagePanelController.OnPackageToggleChanged | Assets/Scripts/setting/PackagePanelController.cs:138-167 | once a toggle was turned on, or all three are off, that toggle alone is on, its label is shown and its package goes into the edited shop; otherwise nothing changes |
| PackagePanel.PackagePanelController.DisplayData | Assets/Scripts/setting/PackagePanelController.cs:117-136 | afterwards exactly one package is selected and its label shows; a stored package is selected, and an unknown or empty one falls back to Basic before the listeners exist, or keeps the previous toggles once they do, with the edited shop carrying the selected package |
| PackagePanel.PackagePanelController.SetEditMode | Assets/Scripts/setting/PackagePanelController.cs:176-188 | edit mode shows the save and cancel buttons and unlocks the toggles, and hides the edit button, and the reverse outside edit mode |
| PackagePanel.PackagePanelController.SetupPanel | Assets/Scripts/setting/PackagePanelController.cs:81-115 | the panel keeps the original shop, shows it, enters the requested mode and has its listeners; a known package is selected and the edited copy equals the shop, and an unknown one falls back as DisplayData says |
| PackagePanel.PackagePanelController.ClickToggle | Assets/Scripts/setting/PackagePanelController.cs:138-174 | a click on an unlocked toggle leaves that package alone selected and in the edited shop (a click on the one selected toggle is undone by the listener); on locked toggles nothing changes |
| PackagePanel.PackagePanelController.OnEditButtonClicked | Assets/Scripts/setting/PackagePanelController.cs:190-194 | the panel enters edit mode |
| PackagePanel.PackagePanelController.OnSaveButtonClicked | Assets/Scripts/setting/PackagePanelController.cs:196-229 | without a signed-in user nothing changes; a successful update writes exactly the package type, makes the edited shop the original, hands it to the callback and leaves the inputs locked; a failed update unlocks them and changes nothing else |
| PackagePanel.PackagePanelController.OnCancelEditButtonClicked | Assets/Scripts/setting/PackagePanelController.cs:231-237 | the original package is shown again, edit mode ends and the original shop is handed to the callback |
| ShopInfoPanel.CompleteSpec | Assets/Scripts/setting/ShopInfoPanelController.cs:182-195 | a save is complete exactly when the name, the phone and the tax id each hold a character other than white space and an industry other than the placeholder is chosen |
| ShopInfoPanel.DisplayedShopSavesUnchanged | Assets/Scripts/setting/ShopInfoPanelController.cs:121-185 | a complete shop with trimmed texts and a listed industry, saved exactly as the panel shows it, comes back unchanged |
| ShopInfoPanel.ShopInfoPanelController.constructor | Assets/Scripts/setting/ShopInfoPanelController.cs:36-80 | the industry list is filled and its first entry chosen; no save has happened |
| ShopInfoPanel.ShopInfoPanelController.DisplayData | Assets/Scripts/setting/ShopInfoPanelController.cs:121-132 | the panel shows the shop's texts, missing ones as empty, and its industry, or the placeholder when it is not listed |
| ShopInfoPanel.ShopInfoPanelController.SetEditMode | Assets/Scripts/setting/ShopInfoPanelController.cs:158-165 | edit mode shows save and cancel and unlocks the inputs, and hides the edit button, and the reverse outside edit mode |
| ShopInfoPanel.ShopInfoPanelController.SetupPanel | Assets/Scripts/setting/ShopInfoPanelController.cs:83-119 | the panel keeps the shop, edits an equal copy, shows it and enters the requested mode |
| ShopInfoPanel.ShopInfoPanelController.Fill | Assets/Scripts/setting/ShopInfoPanelController.cs:134-140 | typing and choosing change the panel only while its inputs are unlocked |
| ShopInfoPanel.ShopInfoPanelController.OnEditButtonClicked | Assets/Scripts/setting/ShopInfoPanelController.cs:167-171 | the panel enters edit mode |
| ShopInfoPanel.ShopInfoPanelController.OnSaveButtonClicked | Assets/Scripts/setting/ShopInfoPanelController.cs:173-218 | without a user nothing changes; otherwise the trimmed texts and the chosen industry are read in, an incomplete shop is refused with nothing else changed, a successful write records the shop, leaves edit mode, makes it the original and hands it to the callback (the save and cancel buttons stay disabled, as written), and a failed write unlocks everything again |
| ShopInfoPanel.ShopInfoPanelController.Store | Assets/Scripts/setting/ShopInfoPanelController.cs:197-217 | the write itself: on success the shop is written and handed on and edit mode ends; on failure nothing is recorded and the inputs and buttons are unlocked |
| ShopInfoPanel.ShopInfoPanelController.SaveThenEdit | Assets/Scripts/setting/ShopInfoPanelController.cs:167-209 | as written, after a successful save and a click on Edit the save and cancel buttons are visible but still disabled |
| ShopInfoPanel.ShopInfoPanelController.OnSaveButtonClickedReenabling | Assets/Scripts/setting/ShopInfoPanelController.cs:173-218 | the corrected save: the same outcomes and writes, but a successful save makes the save and cancel buttons clickable again |
| ShopInfoPanel.ShopInfoPanelController.CorrectedSaveThenEdit | Assets/Scripts/setting/ShopInfoPanelController.cs:167-209 | with the corrected save, Edit after a successful save offers clickable save and cancel buttons |
| ShopInfoPanel.ShopInfoPanelController.OnCancelEditButtonClicked | Assets/Scripts/setting/ShopInfoPanelController.cs:220-227 | the original shop is shown again, edit mode ends and the original is handed to the callback |
| EInvoicePanel.CheckSpec | Assets/Scripts/setting/EInvoicePanelController.cs:199-208 | a save passes exactly when the provider is the placeholder or FPT and a real form and type are chosen, and another provider is reported first, exactly when it is chosen |
| EInvoicePanel.DisplayedShopSavesUnchanged | Assets/Scripts/setting/EInvoicePanelController.cs:122-197 | a shop whose e-invoice texts are set, trimmed and listed, saved exactly as the panel shows it, comes back unchanged |
| EInvoicePanel.UnknownFormShowsPlaceholder | Assets/Scripts/setting/EInvoicePanelController.cs:132-208 | a stored form that is missing or not listed shows the placeholder, which every later save refuses |
| EInvoicePanel.EInvoicePanelController.constructor | Assets/Scripts/setting/EInvoicePanelController.cs:75-92 | the three option lists are filled and the first of each chosen; no save has happened |
| EInvoicePanel.EInvoicePanelController.DisplayData | Assets/Scripts/setting/EInvoicePanelController.cs:122-142 | the panel shows the shop's account texts, missing ones as empty, and its provider, form and type, each as the placeholder when not listed |
| EInvoicePanel.EInvoicePanelController.SetEditMode | Assets/Scripts/setting/EInvoicePanelController.cs:169-176 | edit mode shows save and cancel and unlocks the inputs, and hides the edit button, and the reverse outside edit mode |
| EInvoicePanel.EInvoicePanelController.SetupPanel | Assets/Scripts/setting/EInvoicePanelController.cs:94-120 | the panel keeps the shop, edits an equal copy, shows it and enters the requested mode |
| EInvoicePanel.EInvoicePanelController.ChooseOptions | Assets/Scripts/setting/EInvoicePanelController.cs:144-151 | choosing options changes the panel only while its inputs are unlocked |
| EInvoicePanel.EInvoicePanelController.TypeTexts | Assets/Scripts/setting/EInvoicePanelController.cs:144-151 | typing changes the panel only while its inputs are unlocked |
| EInvoicePanel.EInvoicePanelController.OnEditButtonClicked | Assets/Scripts/setting/EInvoicePanelController.cs:178-182 | the panel enters edit mode |
| EInvoicePanel.EInvoicePanelController.OnSaveButtonClicked | Assets/Scripts/setting/EInvoicePanelController.cs:184-232 | without a user nothing changes; otherwise the panel is read in, a rejection is reported exactly when the checks fail and records nothing, a successful write records the shop, makes it the original and hands it to the callback, and a failed write unlocks the inputs again |
| EInvoicePanel.EInvoicePanelController.OnCancelEditButtonClicked | Assets/Scripts/setting/EInvoicePanelController.cs:234-240 | the original shop is shown again, edit mode ends and the original is handed to the callback |
| AddProductPanel.Picked | Assets/Scripts/Inventory/AddProductPanelManager.cs:166-178 | the placeholder (index 0 or below) contributes "", an index inside the options contributes that option, and an index past them is exactly the out-of-range read |
| AddProductPanel.NonNegativeLong | Assets/Scripts/Inventory/AddProductPanelManager.cs:187-203 | a field is accepted exactly when long.TryParse succeeds with a value of at least 0, and then yields that value |
| AddProductPanel.CheckSpec | Assets/Scripts/Inventory/AddProductPanelManager.cs:159-218 | a product is built exactly when the trimmed name and unit are non-empty and the price, import price and initial stock parse as non-negative longs; it then has no id, the trimmed texts, the parsed numbers and the picked category and manufacturer; otherwise the reason is the first check that fails |
| AddProductPanel.FormRoundTrip | Assets/Scripts/Inventory/AddProductPanelManager.cs:159-218 | a product without an id, with trimmed non-empty name and unit, trimmed barcode and image address and non-negative long numbers, typed back into the form, is accepted as exactly that product |
| AddProductPanel.NonNegativeRoundTrip | Assets/Scripts/Inventory/AddProductPanelManager.cs:187-203 | the decimal text of a non-negative long parses back to that number |
| AddProductPanel.AddProductPanelManager.constructor | Assets/Scripts/Inventory/AddProductPanelManager.cs:1-84 | nothing has been added, the buttons are enabled and the panel is hidden |
| AddProductPanel.AddProductPanelManager.ShowPanel | Assets/Scripts/Inventory/AddProductPanelManager.cs:85-135 | the callback is stored, the inputs are reset with initial stock "0", each dropdown holds its placeholder followed by the given list with the placeholder chosen, and the panel is shown |
| AddProductPanel.AddProductPanelManager.HidePanel | Assets/Scripts/Inventory/AddProductPanelManager.cs:138-146 | the panel is hidden |
| AddProductPanel.AddProductPanelManager.Submit | Assets/Scripts/Inventory/AddProductPanelManager.cs:232-261 | a store that returns an id adds the product, runs the callback when one is set, hides the panel and returns the product with its id; a failure adds nothing; the buttons are enabled afterwards in both cases |
| AddProductPanel.AddProductPanelManager.OnConfirmAddButtonClicked | Assets/Scripts/Inventory/AddProductPanelManager.cs:148-262 | without a user or with an out-of-range dropdown nothing happens; otherwise a failed check is reported with its reason and the buttons untouched; offline is reported after the buttons were disabled and leaves them disabled, as written; online the product is stored with its new id, or the failure reported, and the buttons are enabled again; only a stored product is added |
| AddProductPanel.AddProductPanelManager.ConfirmAddCheckingOnlineFirst | Assets/Scripts/Inventory/AddProductPanelManager.cs:223-261 | the corrected order: the same outcomes and writes, but offline is reported before the buttons are touched, so enabled buttons stay enabled |
| ImportStockPanel.QuantityToAdd | Assets/Scripts/Inventory/ImportStockPanelManager.cs:144-148 | a quantity is accepted exactly when long.TryParse succeeds with a value above 0, and then it is that long |
| ImportStockPanel.QuantityRoundTrip | Assets/Scripts/Inventory/ImportStockPanelManager.cs:144-148 | the decimal text of a positive long is accepted as that quantity |
| ImportStockPanel.ImportStockPanelManager.constructor | Assets/Scripts/Inventory/ImportStockPanelManager.cs:1-72 | no product is selected, nothing was imported and the panel is hidden |
| ImportStockPanel.ImportStockPanelManager.SetInteractable | Assets/Scripts/Inventory/ImportStockPanelManager.cs:108-125 | the panel group, the quantity field and both buttons all take the given state |
| ImportStockPanel.ImportStockPanelManager.ShowPanel | Assets/Scripts/Inventory/ImportStockPanelManager.cs:74-96 | a null product changes nothing; otherwise the product and callback are kept, its name, stock and import price are shown, the quantity and status are cleared and the panel is shown accepting input |
| ImportStockPanel.ImportStockPanelManager.HidePanel | Assets/Scripts/Inventory/ImportStockPanelManager.cs:98-106 | the panel is hidden, its status cleared and its controls locked |
| ImportStockPanel.ImportStockPanelManager.TypeQuantity | Assets/Scripts/Inventory/ImportStockPanelManager.cs:87 | the quantity field holds what was typed |
| ImportStockPanel.ImportStockPanelManager.OnConfirmImportButtonClicked | Assets/Scripts/Inventory/ImportStockPanelManager.cs:128-189 | a missing product, no user, a bad quantity and offline are each reported exactly in their case, in that order, and change nothing else; a successful update adds the quantity to the product's stock in Firestore and in the shared product, runs the callback, hides the panel and unlocks it; a failed update shows the error and changes no stock |
| Inventory.Choose | Assets/Scripts/Inventory/InventoryManager.cs:530-546 | a dropdown filters exactly when an option past the first is chosen that is not the "all" label, and then by that option's text; a choice past the options is exactly the out-of-range read |
| Inventory.NullFirstPreorder | Assets/Scripts/Inventory/InventoryManager.cs:513-562 | ordering strings with null first is a total preorder whenever the string order is |
| Inventory.SortOrderPreorder | Assets/Scripts/Inventory/InventoryManager.cs:557-585 | options 0 to 6 and only those sort, and each of their orders is a total preorder |
| Inventory.SearchFailsIff | Assets/Scripts/Inventory/InventoryManager.cs:548-555 | the search throws exactly when the text is non-empty and some product the dropdowns keep has a null name, or a name without the text and a null barcode |
| Inventory.HitsArePassing | Assets/Scripts/Inventory/InventoryManager.cs:528-555 | the dropdown filters followed by the search keep exactly the products that pass all three filters, in list order |
| Inventory.DisplayedSpec | Assets/Scripts/Inventory/InventoryManager.cs:526-588 | the list shows every product passing the filters exactly as often as the inventory holds it, and nothing else; options 0 to 6 sort it and any other option keeps the inventory's order; it throws exactly for a choice past the options or a search that throws |
| Inventory.StockTotalConcat | Assets/Scripts/Inventory/InventoryManager.cs:595-599 | the stock total of two lists joined is the sum of their totals |
| Inventory.StockTotalPermutation | Assets/Scripts/Inventory/InventoryManager.cs:595-599 | the stock total does not depend on the order of the list |
| Inventory.SummaryIgnoresSort | Assets/Scripts/Inventory/InventoryManager.cs:557-599 | every sort option shows the same number of products, the same total value and the same total quantity |
| Inventory.Categories | Assets/Scripts/Inventory/InventoryManager.cs:513 | the category of every product, in list order |
| Inventory.Manufacturers | Assets/Scripts/Inventory/InventoryManager.cs:514 | the manufacturer of every product, in list order |
| Inventory.FilterOptionsSpec | Assets/Scripts/Inventory/InventoryManager.cs:511-523 | each filter dropdown starts with its "all" entry, followed by every value some product holds exactly once, sorted with null first |
| Inventory.EditRoundTrip | Assets/Scripts/Inventory/InventoryManager.cs:655-689 | opening a product for editing and saving it untouched gives back the product, with its null strings turned into "" |
| Inventory.EditedForgetsOld | Assets/Scripts/Inventory/InventoryManager.cs:681-689 | the saved product depends on the old one only through its id: the name is the input as typed, and an unparsable price or stock becomes 0 |
| Inventory.InventoryManager.constructor | Assets/Scripts/Inventory/InventoryManager.cs:1-99 | no products, nothing shown, nothing being edited or saved, and every filter at its first entry |
| Inventory.InventoryManager.CalculateInventorySummary | Assets/Scripts/Inventory/InventoryManager.cs:590-625 | the value shown is the sum of price times stock and the quantity the sum of stock over the shown products, and the status line tells a filter miss from an empty inventory |
| Inventory.InventoryManager.ApplyFiltersAndSearch | Assets/Scripts/Inventory/InventoryManager.cs:526-588 | the shown list is the filtered and sorted inventory, with its summary; where the filtering throws nothing changes |
| Inventory.InventoryManager.PopulateFilterDropdowns | Assets/Scripts/Inventory/InventoryManager.cs:511-523 | the dropdowns hold the "all" entry and the distinct sorted categories and manufacturers of the inventory, with the first entry chosen |
| Inventory.InventoryManager.OnProductsChanged | Assets/Scripts/Inventory/InventoryManager.cs:489-506 | the inventory becomes the new product list, which is filtered and shown before the dropdowns are rebuilt from it; where the filtering throws the shown list and the dropdowns stay as they were |
| Inventory.InventoryManager.HandleEditProductRequest | Assets/Scripts/Inventory/InventoryManager.cs:647-665 | the product becomes the one being edited and the edit panel shows its fields |
| Inventory.InventoryManager.SaveEditedProduct | Assets/Scripts/Inventory/InventoryManager.cs:667-717 | no user, no path or no product does nothing, and offline does nothing, each exactly in its case; otherwise the product takes the form's values, an empty name stops there, and a successful write records the product and closes the panel while a failed one records nothing |
| SalesCart.AddKeepsWithinStock | Assets/Scripts/Sale/SalesCartManager.cs:224-261 | with the Inventory feature, an accepted add keeps every cart line within the stock of its inventory product |
| SalesCart.ChangeKeepsWithinStock | Assets/Scripts/Sale/SalesCartManager.cs:356-393 | with the Inventory feature, a quantity change keeps every cart line within stock |
| SalesCart.AddAcceptedIff | Assets/Scripts/Sale/SalesCartManager.cs:194-235 | an add happens exactly when the product and its id are present, the inventory list is loaded and holds the id, and, with the Inventory feature only, the cart quantity plus the request does not exceed that product's stock |
| SalesCart.AddLineEffect | Assets/Scripts/Sale/SalesCartManager.cs:241-261 | after an accepted add the line for the id holds the old cart quantity plus the request, a new line copies the product with null strings as "", and every other line is untouched |
| SalesCart.SearchSpec | Assets/Scripts/Sale/SalesCartManager.cs:144-157 | the popup lists every product whose name or barcode contains the trimmed, lowered text (all products for a blank text) exactly as often as the inventory holds it, and nothing else, sorted by name |
| SalesCart.IncreaseAtStockUndone | Assets/Scripts/Sale/SalesCartManager.cs:356-374 | pressing + on a line that already holds the whole stock leaves the cart as it was, because the handler caps the bumped quantity back to the stock |
| SalesCart.Cart.constructor | Assets/Scripts/Sale/SalesCartManager.cs:55-76 | the cart is empty, has no rows and no inventory list |
| SalesCart.Cart.ItemsAreLines | Assets/Scripts/Sale/SalesCartManager.cs:224-260 | the dictionary's entries are exactly the cart's id-to-line table |
| SalesCart.Cart.EnumerationCoversCart | Assets/Scripts/Sale/SalesCartManager.cs:306-323 | enumerating the dictionary visits every cart line exactly once, with its current value |
| SalesCart.Cart.UpdateCartUI | Assets/Scripts/Sale/SalesCartManager.cs:271-348 | the rows are rebuilt from the cart (one per line when the row prefab has its script, none if a widget is missing) and the cart itself does not change |
| SalesCart.Cart.SetStock | Assets/Scripts/Sale/SalesCartManager.cs:369-383 | writing a quantity into a line object changes that line's quantity and nothing else |
| SalesCart.Cart.InsertLine | Assets/Scripts/Sale/SalesCartManager.cs:247-260 | Dictionary.Add of a new line object files it under its id and leaves the other lines alone |
| SalesCart.Cart.DeleteLine | Assets/Scripts/Sale/SalesCartManager.cs:398-405 | Dictionary.Remove drops the line and its row and nothing else |
| SalesCart.Cart.GetProductFromAllUserProducts | Assets/Scripts/Sale/SalesCartManager.cs:77-85 | no inventory list gives null; otherwise the result is a product of the list with that id, and one is found whenever the list holds the id |
| SalesCart.Cart.SetAllUserProducts | Assets/Scripts/Sale/SalesCartManager.cs:431-439 | the inventory list is replaced and the cart is untouched |
| SalesCart.Cart.CheckAdd | Assets/Scripts/Sale/SalesCartManager.cs:188-235 | the add guards in the handler's order |
| SalesCart.Cart.HandleAddToCartFromPopup | Assets/Scripts/Sale/SalesCartManager.cs:188-269 | a refused add changes nothing; an accepted one adds the quantity to the product's line, or files a new line, and rebuilds the rows |
| SalesCart.Cart.HandleRemoveCartItem | Assets/Scripts/Sale/SalesCartManager.cs:396-409 | the line and its row are removed, and the rows are rebuilt when the line was there |
| SalesCart.Cart.ClearCart | Assets/Scripts/Sale/SalesCartManager.cs:422-428 | the cart and its rows are emptied |
| SalesCart.Cart.CheckChange | Assets/Scripts/Sale/SalesCartManager.cs:350-384 | the branch a quantity change takes |
| SalesCart.Cart.ZeroAndRemove | Assets/Scripts/Sale/SalesCartManager.cs:381-387 | a quantity of zero or less removes the line |
| SalesCart.Cart.HandleCartItemQuantityChanged | Assets/Scripts/Sale/SalesCartManager.cs:350-394 | a change for an id outside the cart does nothing; above the stock with the Inventory feature the line is capped to the stock when its row exists; otherwise the line takes the quantity, and a quantity of 0 or less removes it |
| SalesCart.Cart.IncreaseFromRow | Assets/Scripts/Sale/SalesCartManager.cs:306-316 | the row's + button bumps the very line object the cart holds and reports its new quantity |
| SalesCart.Cart.DecreaseFromRow | Assets/Scripts/Sale/SalesCartManager.cs:306-316 | the row's - button lowers the line object the cart holds, and reports a removal at 0 or below, else the new quantity |
| SalesCart.Cart.PressIncrease | Assets/Scripts/Sale/SalesCartManager.cs:315-394 | + on a row is a quantity change to the line's quantity plus one, applied to the already bumped cart |
| SalesCart.Cart.PressDecrease | Assets/Scripts/Sale/SalesCartManager.cs:315-409 | - on a row holding 1 or less removes the line; otherwise it is a quantity change to one less |
| SalesCart.Cart.HandleRowEvent | Assets/Scripts/Sale/SalesCartManager.cs:315-316 | a row's removal event removes the line, and its quantity event is handled as a quantity change |
| SalesCart.LinesPut | Assets/Scripts/Sale/SalesCartManager.cs:243-260 | Dictionary.Add or the indexer's setter gives the old table with the key mapped to the new line |
| SalesCart.LinesRemove | Assets/Scripts/Sale/SalesCartManager.cs:400 | Dictionary.Remove gives the old table without the key |
| CartItemView.CartItemUI.constructor | Assets/Scripts/Sale/CartItemUI.cs:1-28 | a new row shows no line |
| CartItemView.CartItemUI.SetCartItemData | Assets/Scripts/Sale/CartItemUI.cs:29-54 | the row keeps the very line object it is given and its labels show that line |
| CartItemView.CartItemUI.OnIncreaseQuantity | Assets/Scripts/Sale/CartItemUI.cs:56-72 | the row's line object gains one unit, its labels follow, and QuantityChanged carries the new quantity |
| CartItemView.CartItemUI.OnDecreaseQuantity | Assets/Scripts/Sale/CartItemUI.cs:74-96 | the line object loses one unit; at 0 or below RemovedFromCart is raised and the labels keep their old text, otherwise the labels follow and QuantityChanged carries the new quantity |
| CartItemView.CartItemUI.OnRemoveItem | Assets/Scripts/Sale/CartItemUI.cs:98-101 | the remove button changes nothing and raises RemovedFromCart for the line's id |
| ProductSearchItem.ProductSearchUIItem.constructor | Assets/Scripts/Sale/ProductSearchUIItem.cs:1-50 | a new item shows no product, its quantity field holds "1" in white and its button is enabled |
| ProductSearchItem.ProductSearchUIItem.SetProductData | Assets/Scripts/Sale/ProductSearchUIItem.cs:52-104 | the item shows the product; the stock label shows only with the Inventory feature, with " (Hết hàng)" at 0 or below; the button is enabled exactly when the feature is off or the stock is positive; without the feature the quantity resets to "1" in white |
| ProductSearchItem.ProductSearchUIItem.TypeQuantity | Assets/Scripts/Sale/ProductSearchUIItem.cs:45-48 | the quantity field holds what was typed |
| ProductSearchItem.ProductSearchUIItem.OnQuantityInputEndEdit | Assets/Scripts/Sale/ProductSearchUIItem.cs:106-144 | a text that is not a positive long becomes "1" in red; with the Inventory feature a quantity above the stock becomes the stock in red; a valid one turns white; with no product shown the handler throws exactly where it reads the product |
| ProductSearchItem.ProductSearchUIItem.OnAddToCartButtonClicked | Assets/Scripts/Sale/ProductSearchUIItem.cs:147-163 | with a product shown and a positive long in the field, that product and quantity are requested; otherwise nothing is |
| ProductSearchItem.EditedQuantityInRange | Assets/Scripts/Sale/ProductSearchUIItem.cs:106-163 | after the end-edit handler a click requests at least 1, at most the stock with the Inventory feature and stock left; a rejected entry is requested as 1 and an accepted one unchanged |
| SalesFinalize.SubtotalConcat | Assets/Scripts/Sale/SalesFinalizeTransaction.cs:85-88 | the subtotal of two line lists joined is the sum of their subtotals |
| SalesFinalize.SubtotalWithout | Assets/Scripts/Sale/SalesFinalizeTransaction.cs:85-88 | a subtotal is the subtotal without one line plus that line's price times quantity |
| SalesFinalize.SubtotalPermutation | Assets/Scripts/Sale/SalesFinalizeTransaction.cs:85-88 | the subtotal does not depend on the order in which the lines are enumerated |
| SalesFinalize.SumLines | Assets/Scripts/Sale/SalesFinalizeTransaction.cs:82-89 | the summary loop adds up price times quantity over the cart lines |
| SalesFinalize.SaleItemsOf | Assets/Scripts/Sale/SalesFinalizeTransaction.cs:218-240 | one sale item per cart line, in cart order |
| SalesFinalize.FirstShort | Assets/Scripts/Sale/SalesFinalizeTransaction.cs:219-230 | the first line short of stock, if any: every line before it passes the stock check, and with none every line passes |
| SalesFinalize.BuildSaleItems | Assets/Scripts/Sale/SalesFinalizeTransaction.cs:217-240 | the loop stops at the first line short of stock and reports it; otherwise it builds one sale item per line |
| SalesFinalize.ShortIsFirst | Assets/Scripts/Sale/SalesFinalizeTransaction.cs:219-230 | the line at which the loop stopped is the first short line |
| SalesFinalize.PrepareSale | Assets/Scripts/Sale/SalesFinalizeTransaction.cs:217-256 | a short line is reported; otherwise the sale holds the saved customer, the cart's items, the subtotal, the tax on it, their sum and the time |
| SalesFinalize.Decrements | Assets/Scripts/Sale/SalesFinalizeTransaction.cs:271-275 | the stock batch holds, for each line, its product id with minus its quantity |
| SalesFinalize.BuildBatch | Assets/Scripts/Sale/SalesFinalizeTransaction.cs:270-276 | the batch loop produces exactly those decrements |
| SalesFinalize.Finalizer.constructor | Assets/Scripts/Sale/SalesFinalizeTransaction.cs:46-77 | nothing has been written and no customer is current |
| SalesFinalize.Finalizer.UpdateCartSummaryUI | Assets/Scripts/Sale/SalesFinalizeTransaction.cs:80-103 | the subtotal, tax and total shown are the cart's (0 without a cart) and the complete button is enabled exactly when the cart has lines |
| SalesFinalize.Finalizer.CheckSale | Assets/Scripts/Sale/SalesFinalizeTransaction.cs:115-153 | an empty cart, no user, no shop settings, no Sales feature and a company without a company name stop the flow, in that order; otherwise the customer from the form goes on, named "Khách lẻ" when its name is empty |
| SalesFinalize.Finalizer.SaveCustomer | Assets/Scripts/Sale/SalesFinalizeTransaction.cs:158-215 | a customer without an id is added and gets the new id, a changed one is rewritten under its id, an unchanged one is reused; a failed write stops the flow with nothing written |
| SalesFinalize.Finalizer.StoreSale | Assets/Scripts/Sale/SalesFinalizeTransaction.cs:260-295 | the sale is added, then with the Inventory feature the stock batch is committed; a failure of either is reported |
| SalesFinalize.Finalizer.Checkout | Assets/Scripts/Sale/SalesFinalizeTransaction.cs:217-295 | steps 4 and 5: the stock check, the sale and the batch, as CheckoutRun states |
| SalesFinalize.Finalizer.OnCancelSaleButtonClicked | Assets/Scripts/Sale/SalesFinalizeTransaction.cs:329-337 | the cart is emptied and the customer forgotten, and nothing is written |
| SalesFinalize.Finalizer.SaveAndCheckout | Assets/Scripts/Sale/SalesFinalizeTransaction.cs:155-324 | steps 3 to 5, as AfterChecks states, and the buttons are enabled at the end |
| SalesFinalize.Finalizer.OnCompleteSaleButtonClicked | Assets/Scripts/Sale/SalesFinalizeTransaction.cs:106-326 | the outcome and the writes are those of the whole flow over the cart's lines; a completed sale whose e-invoice step returns empties the cart and forgets the customer, while one whose e-invoice step throws keeps the cart and leaves both buttons disabled; any other outcome leaves the cart; the first three checks leave the buttons alone and every other ending enables them |
| SalesFinalize.NormalCustomerNamed | Assets/Scripts/Sale/SalesFinalizeTransaction.cs:140-153 | a customer the flow goes on with always has a name, equal to the form's when it had one, and a company always has a company name; the flow stops exactly for a company without one |
| SalesFinalize.SaleRunWrites | Assets/Scripts/Sale/SalesFinalizeTransaction.cs:106-326 | a failed check, a missing company name and a failed customer write write nothing; otherwise at most one customer write comes first, the sale is written exactly when the flow got past the stock check, and the stock batch, with the Inventory feature only, follows the sale of a completed checkout |
| SalesFinalize.AfterChecksWrites | Assets/Scripts/Sale/SalesFinalizeTransaction.cs:158-295 | the writes of steps 3 to 5 are in that order, and a failed customer write writes nothing |
| SalesFinalize.CheckoutRunWrites | Assets/Scripts/Sale/SalesFinalizeTransaction.cs:260-295 | steps 4 and 5 write the sale exactly when the sale step was reached, and the batch after it exactly for a completed sale with the Inventory feature |
| SalesFinalize.ConcatWrites | Assets/Scripts/Sale/SalesFinalizeTransaction.cs:158-295 | one customer write followed by the sale and batch writes keeps that order |
| SalesFinalize.CompletedSaleMatchesCart | Assets/Scripts/Sale/SalesFinalizeTransaction.cs:106-326 | a completed sale has one item per cart line in order, the cart's subtotal, the tax on it and their sum, the current time and a named buyer; every line passed the stock check |
| SalesFinalize.SavedCustomerKeepsName | Assets/Scripts/Sale/SalesFinalizeTransaction.cs:158-201 | the customer the flow goes on with has the name entered |
| SalesFinalize.CheckoutRunCompleted | Assets/Scripts/Sale/SalesFinalizeTransaction.cs:217-295 | a completed checkout stored the sale of the lines for the customer, after every line passed the stock check |
| SalesFptInvoice.NumberItems | Assets/Scripts/Sale/SalesFptInvoiceManager.cs:248-253 | the loop numbers the cart lines from 1 in enumeration order, one invoice item each |
| SalesFptInvoice.ItemAmounts | Assets/Scripts/Sale/SalesFptInvoiceManager.cs:176-201 | a line's amount is price times quantity, its VAT a tenth of that and its total their sum; it carries the line number and the quantity |
| SalesFptInvoice.ItemPayload | Assets/Scripts/Sale/SalesFptInvoiceManager.cs:176-201 | each line of the payload carries its number when not 0, the barcode as code, the name and unit (never null) and the rate code "10"; the quantity is left out exactly when it is 0 |
| SalesFptInvoice.LinesAddUp | Assets/Scripts/Sale/SalesFptInvoiceManager.cs:248-264 | the lines' amounts add up to the cart subtotal and their totals to the subtotal plus its VAT, so the lines agree with the invoice totals |
| SalesFptInvoice.CreateFptInvoiceData | Assets/Scripts/Sale/SalesFptInvoiceManager.cs:204-267 | the builder loop produces the invoice InvoiceDataOf describes |
| SalesFptInvoice.PayloadHeader | Assets/Scripts/Sale/SalesFptInvoiceManager.cs:208-223 | the invoice sends the shop's type, form, serial and tax id (null as ""), aun 2 and no class |
| SalesFptInvoice.PayloadBuyer | Assets/Scripts/Sale/SalesFptInvoiceManager.cs:225-246 | without a customer no buyer fields are sent; otherwise the company name for a company and "Khách lẻ" for anyone else, the customer's name as buyer, and an id number exactly when the customer has a non-empty one |
| SalesFptInvoice.PayloadLines | Assets/Scripts/Sale/SalesFptInvoiceManager.cs:248-253 | the numbered lines are sent as "items" when the cart is not empty, and an empty list is left out |
| SalesFptInvoice.InvoiceTotals | Assets/Scripts/Sale/SalesFptInvoiceManager.cs:255-264 | the invoice carries the cart subtotal as sum and sumv, its 10% as vat and their sum as total |
| SalesFptInvoice.TopLevelReads | Assets/Scripts/Sale/SalesFptInvoiceManager.cs:111-120 | a string member of the reply reads as itself, a JSON null as null and an absent member as "" (the lazy node); a reply that is not an object reads as null |
| SalesFptInvoice.DocumentedInvReads | Assets/Scripts/Sale/SalesFptInvoiceManager.cs:96-108 | the "inv" object's "sid" and "serial" strings are read as they are, and an absent "inv" reads both as "" |
| SalesFptInvoice.DocumentedTopReads | Assets/Scripts/Sale/SalesFptInvoiceManager.cs:110-120 | the top-level "seq" and "link" strings are read as they are |
| SalesFptInvoice.ProcessGuards | Assets/Scripts/Sale/SalesFptInvoiceManager.cs:48-85 | the feature, FPT-provider, client and online checks come first and, when one fails, nothing is sent and the outcome is a failure with a message; when they pass but the client's default FPT config is null, nothing is sent and a null reference escapes; otherwise exactly the invoice CreateFptInvoiceData builds is sent |
| SalesFptInvoice.ReplySteps | Assets/Scripts/Sale/SalesFptInvoiceManager.cs:84-153 | a refused request returns the client's error; an invoice is issued exactly when FPT accepted it, its reply parsed and, for a sale with an id, the update succeeded, and carries the references read from the reply; the references go onto the sale exactly when it has an id, and a failed update is reported as a failure to read the reply |
| SalesFptInvoice.OnExportInvoiceButtonClicked | Assets/Scripts/Sale/SalesFptInvoiceManager.cs:158-172 | the "being developed" message shows exactly when both configs are loaded and the package has the EInvoice feature, and the upgrade message otherwise |
| ExcelCells.GetCell | Assets/BansheeGz/BGDatabaseExcelRuntime/Scripts/Excel/BGExcelSheetReaderART.cs:52-53 | the cell found belongs to the row and sits in the asked column, and none is found exactly when no cell of the row has that column |
| ExcelCells.ReadAsStringSpec | Assets/BansheeGz/BGDatabaseExcelRuntime/Scripts/Excel/BGExcelSheetReaderART.cs:65-99 | a cell reads as its trimmed string, its number's text or "1"/"0" for a boolean; blank, error and unknown cells read as null; a formula reads as null when its text is empty, throws exactly when its cached result is itself a formula, and otherwise reads as its result |
| ExcelCells.EmptyCellReadsNothing | Assets/BansheeGz/BGDatabaseExcelRuntime/Scripts/Excel/BGExcelSheetWriterART.cs:236-266 | a string, blank or unknown cell that the writer's emptiness test calls empty reads back as null or "" |
| ExcelCells.ReadNotNull | Assets/BansheeGz/BGDatabaseExcelRuntime/Scripts/Excel/BGExcelSheetReaderART.cs:50-57 | the action receives a value only when the cell exists and reads as a non-empty text, and then it receives exactly that text; a missing cell calls nothing; it throws exactly when reading the cell throws |
| ExcelCells.SurvivorsSpec | Assets/BansheeGz/BGDatabaseExcelRuntime/Scripts/Excel/BGExcelSheetReaderART.cs:25-32 | an ExitException abandons only its own row: the rows that complete are exactly the visited rows whose action does not exit |
| ExcelCells.ForEachRowNoHeader | Assets/BansheeGz/BGDatabaseExcelRuntime/Scripts/Excel/BGExcelSheetReaderART.cs:15-36 | the count is the number of rows including the header; every row after the first is handed to the action, in order; the completed rows are those whose action does not exit |
| ExcelCells.ForEachCell | Assets/BansheeGz/BGDatabaseExcelRuntime/Scripts/Excel/BGExcelSheetReaderART.cs:38-48 | a null row visits nothing; otherwise each cell is visited once, in list order, with its position in the list |
| ExcelIds.FirstIdsKeys | Assets/BansheeGz/BGDatabaseExcelRuntime/Scripts/Excel/IdResolver/BGExcelIdResolverFieldART.cs:20-31 | the value-to-id dictionary has a key for exactly the values the field holds |
| ExcelIds.FirstIdsFirst | Assets/BansheeGz/BGDatabaseExcelRuntime/Scripts/Excel/IdResolver/BGExcelIdResolverFieldART.cs:24-31 | for a duplicated value the first entity keeps it: the value maps to the id of its first occurrence |
| ExcelIds.FirstIdsInColumn | Assets/BansheeGz/BGDatabaseExcelRuntime/Scripts/Excel/IdResolver/BGExcelIdResolverFieldART.cs:24-31 | every id the dictionary holds is the id of one of the meta's entities |
| ExcelIds.BuildValueMap | Assets/BansheeGz/BGDatabaseExcelRuntime/Scripts/Excel/IdResolver/BGExcelIdResolverFieldART.cs:20-31 | the constructor loop throws ArgumentNullException exactly when a string value is null (a null Dictionary key), and otherwise builds exactly the first-occurrence dictionary |
| ExcelIds.Create | Assets/BansheeGz/BGDatabaseExcelRuntime/Scripts/Excel/IdResolver/BGExcelIdResolverFactoryRT.cs:24-57 | no config or an id-column config gives the id-column resolver; NoId gives the no-id one; Index gives the index resolver over the main meta's entities (or none); a field config whose field is missing or unsupported falls back to the id column, a string or int field gets a field resolver over its first-occurrence dictionary, and it throws exactly for another field type, a string field holding a null value, or an unknown config type |
| ExcelIds.IdColumnSpec | Assets/BansheeGz/BGDatabaseExcelRuntime/Scripts/Excel/IdResolver/BGExcelIdResolverIdRT.cs:17-27 | the id is empty without an id column or when the id cell is missing or reads as null or ""; a formula error propagates; otherwise the id is parsed from the cell's text, and an unparsable text throws |
| ExcelIds.IndexSpec | Assets/BansheeGz/BGDatabaseExcelRuntime/Scripts/Excel/IdResolver/BGExcelIdResolverIndexRT.cs:20-27 | without a main meta the id is empty; otherwise it is never empty: data row n takes the id of the main meta's (n-1)th entity, and a row beyond them gets a new id |
| ExcelIds.FieldSpec | Assets/BansheeGz/BGDatabaseExcelRuntime/Scripts/Excel/IdResolver/BGExcelIdResolverFieldART.cs:34-57 | without a column for the field the id is empty; a value that does not convert leaves it empty; a converted value gives the id of the first entity holding it, or a new, non-empty id when no entity holds it |
| ExcelSheetWriter.SheetWriter.constructor | Assets/BansheeGz/BGDatabaseExcelRuntime/Scripts/Excel/BGExcelSheetWriterART.cs:75-81 | a writer starts on the given workbook with no sheet, no current row, row counter 0 and no used rows |
| ExcelSheetWriter.SheetInfo.Clear | Assets/BansheeGz/BGDatabaseExcelRuntime/Scripts/Excel/BGExcelSheetWriterART.cs:182-186 | clearing a sheet info forgets every registered row |
| ExcelSheetWriter.FirstFree | Assets/BansheeGz/BGDatabaseExcelRuntime/Scripts/Excel/BGExcelSheetWriterART.cs:35-57 | the row NewRow looks for is the smallest number from 1 below 1048575 that is not used and whose row is absent or empty, and there is none exactly when every such number fails |
| ExcelSheetWriter.NewRowNotRepeated | Assets/BansheeGz/BGDatabaseExcelRuntime/Scripts/Excel/BGExcelSheetWriterART.cs:41-53 | once handed out and marked used, a row is not handed out again; the next free row lies after it |
| ExcelSheetWriter.SheetWriter.NewRow | Assets/BansheeGz/BGDatabaseExcelRuntime/Scripts/Excel/BGExcelSheetWriterART.cs:35-57 | returns the first free row and marks it used; when none is free it throws the maximum-rows error and marks nothing |
| ExcelSheetWriter.SheetWriter.NewCellIndex | Assets/BansheeGz/BGDatabaseExcelRuntime/Scripts/Excel/BGExcelSheetWriterART.cs:62-72 | the index is above every column of the current row, 0 for a row without cells, and otherwise one past a column the row has |
| ExcelSheetWriter.EnsureRow | Assets/BansheeGz/BGDatabaseExcelRuntime/Scripts/Excel/BGExcelSheetWriterART.cs:91 | row `index` exists afterwards: an existing row is kept, an absent one is created empty, and every other row is unchanged |
| ExcelSheetWriter.SheetWriter.BeginRow | Assets/BansheeGz/BGDatabaseExcelRuntime/Scripts/Excel/BGExcelSheetWriterART.cs:89-92 | row `index` is fetched or created and becomes the current row and the row counter |
| ExcelSheetWriter.SheetWriter.EndRow | Assets/BansheeGz/BGDatabaseExcelRuntime/Scripts/Excel/BGExcelSheetWriterART.cs:94 | after the action the row counter moves on by one |
| ExcelSheetWriter.ValueCell | Assets/BansheeGz/BGDatabaseExcelRuntime/Scripts/Excel/BGExcelSheetWriterART.cs:131-135 | a value written into a cell leaves a plain cell in that column, never a formula |
| ExcelSheetWriter.SetCell | Assets/BansheeGz/BGDatabaseExcelRuntime/Scripts/Excel/BGExcelSheetWriterART.cs:125-135 | after the write the column holds exactly the written value and every other column of the row is unchanged |
| ExcelSheetWriter.SheetWriter.WriteCell | Assets/BansheeGz/BGDatabaseExcelRuntime/Scripts/Excel/BGExcelSheetWriterART.cs:125-135 | Cell(index, value) sets that cell of the current row to the value and changes no other cell and no other row |
| ExcelSheetWriter.SheetWriter.MapHeader | Assets/BansheeGz/BGDatabaseExcelRuntime/Scripts/Excel/BGExcelSheetWriterART.cs:146-160 | a found column keeps its index; a missing one gets NewCellIndex; the header text is written into that column and nothing else of the row changes |
| ExcelSheetWriter.SortRows | Assets/BansheeGz/BGDatabaseExcelRuntime/Scripts/Excel/BGExcelSheetWriterART.cs:106 | the row list is sorted ascending and keeps the same numbers |
| ExcelSheetWriter.LastRowNum | Assets/BansheeGz/BGDatabaseExcelRuntime/Scripts/Excel/BGExcelSheetWriterART.cs:107 | the sheet's last row number: every row after it is absent and, when it is not 0, its row exists |
| ExcelSheetWriter.KeepLength | Assets/BansheeGz/BGDatabaseExcelRuntime/Scripts/Excel/BGExcelSheetWriterART.cs:103-123 | deleting k distinct rows of the sheet leaves k fewer rows |
| ExcelSheetWriter.SheetWriter.ShiftOut | Assets/BansheeGz/BGDatabaseExcelRuntime/Scripts/Excel/BGExcelSheetWriterART.cs:108-116 | the shifting loop removes exactly the listed rows up to the last row, moving the rows after each one up, and leaves the rows after the last row alone |
| ExcelSheetWriter.SheetWriter.RemoveLast | Assets/BansheeGz/BGDatabaseExcelRuntime/Scripts/Excel/BGExcelSheetWriterART.cs:118-122 | the second loop removes the last `count` rows up to the last row |
| ExcelSheetWriter.SheetWriter.Delete | Assets/BansheeGz/BGDatabaseExcelRuntime/Scripts/Excel/BGExcelSheetWriterART.cs:103-123 | an empty or null list changes nothing; otherwise the list ends sorted with the same numbers, and the sheet's rows are its old rows without the listed ones, in order, followed by as many absent rows |
| ExcelSheetWriter.IsRowEmpty | Assets/BansheeGz/BGDatabaseExcelRuntime/Scripts/Excel/BGExcelSheetWriterART.cs:268-276 | a row is empty exactly when none of its cells holds a value by IsCellEmpty |
| ExcelSheetWriter.SheetWriter.GetDuplicateSheetName | Assets/BansheeGz/BGDatabaseExcelRuntime/Scripts/Excel/BGExcelSheetWriterART.cs:219-229 | a name is returned only when it is a sheet of the book equal to the given name ignoring case, and none exactly when no sheet matches |
| ExcelSheetWriter.SheetWriter.Sheet | Assets/BansheeGz/BGDatabaseExcelRuntime/Scripts/Excel/BGExcelSheetWriterART.cs:162-193 | the row counter restarts at 0; without a sheet info a same-named sheet (ignoring case) is an error that changes nothing, and otherwise a new empty sheet is appended and the factory's info used; with an info its sheet is selected and, when overriding, it and the info are cleared; used rows become those the info registers; no other sheet changes |
| ExcelSheetWriter.SheetWriter.GetRowIndex | Assets/BansheeGz/BGDatabaseExcelRuntime/Scripts/Excel/BGExcelSheetWriterART.cs:206-217 | a registered id gives its row and succeeds exactly when updating; an unregistered id fails without adding and otherwise gets a NewRow, which may throw |
| ExcelEntityReader.FieldIndex | Assets/BansheeGz/BGDatabaseExcelRuntime/Scripts/Excel/BGExcelSheetReaderEntityRT.cs:144 | the position of the field's entry among the mapped columns, and -1 exactly when the field is not mapped |
| ExcelEntityReader.AddField | Assets/BansheeGz/BGDatabaseExcelRuntime/Scripts/Excel/BGExcelSheetReaderEntityRT.cs:144 | after info.AddField the field is mapped to that column: an already mapped field keeps its place with the new column, a new one is appended, and no other entry changes, so no field is ever mapped twice |
| ExcelEntityReader.MapHeadersDistinct | Assets/BansheeGz/BGDatabaseExcelRuntime/Scripts/Excel/BGExcelSheetReaderEntityRT.cs:109-147 | whatever the header row, no field ends up mapped to two columns |
| ExcelEntityReader.FieldFromHeader | Assets/BansheeGz/BGDatabaseExcelRuntime/Scripts/Excel/BGExcelSheetReaderEntityRT.cs:111-147 | every mapped (field, column) pair comes from a header cell in that column whose name maps to that field |
| ExcelEntityReader.HeaderMapped | Assets/BansheeGz/BGDatabaseExcelRuntime/Scripts/Excel/BGExcelSheetReaderEntityRT.cs:126-145 | the last header cell naming a field is the one whose column the field is mapped to |
| ExcelEntityReader.MapHeadersFields | Assets/BansheeGz/BGDatabaseExcelRuntime/Scripts/Excel/BGExcelSheetReaderEntityRT.cs:109-147 | a field is mapped exactly when some header cell names it, and then to the column of the last such cell |
| ExcelEntityReader.MapHeadersIndexId | Assets/BansheeGz/BGDatabaseExcelRuntime/Scripts/Excel/BGExcelSheetReaderEntityRT.cs:130-136 | the id column is -1 when no header cell reads "_id", and otherwise the column of the last one that does |
| ExcelEntityReader.ColumnsByIdAgrees | Assets/BansheeGz/BGDatabaseExcelRuntime/Scripts/Excel/BGExcelSheetReaderEntityRT.cs:154-155 | the field-to-column lookup the id resolvers use (GetFieldColumn) agrees with the mapped columns and holds no other field |
| ExcelEntityReader.EntitySheetReader.constructor | Assets/BansheeGz/BGDatabaseExcelRuntime/Scripts/Excel/BGExcelSheetReaderEntityRT.cs:95-151 | the reader keeps its sheet number, meta, ignore-new flag and relation fields, uses the id-column resolver when given none, maps the header row as MapHeaders does (nothing without a header row) and starts with no rows and zero counters |
| ExcelEntityReader.EntitySheetReader.IsRowEmpty | Assets/BansheeGz/BGDatabaseExcelRuntime/Scripts/Excel/BGExcelSheetReaderEntityRT.cs:278-288 | a row is empty exactly when every mapped cell of it is empty by the writer's IsCellEmpty |
| ExcelEntityReader.ValuesOfSpec | Assets/BansheeGz/BGDatabaseExcelRuntime/Scripts/Excel/BGExcelSheetReaderEntityRT.cs:204-209 | the row's values are its mapped cells read as text, one per column in mapping order, and reading fails exactly when one of those cells cannot be read |
| ExcelEntityReader.ValuesOfErrKeeps | Assets/BansheeGz/BGDatabaseExcelRuntime/Scripts/Excel/BGExcelSheetReaderEntityRT.cs:204-209 | the first cell that cannot be read decides the error; later columns do not change it |
| ExcelEntityReader.EntitySheetReader.ReadValues | Assets/BansheeGz/BGDatabaseExcelRuntime/Scripts/Excel/BGExcelSheetReaderEntityRT.cs:204-209 | the loop reads exactly the values ValuesOf describes |
| ExcelEntityReader.EntitySheetReader.AdmitRow | Assets/BansheeGz/BGDatabaseExcelRuntime/Scripts/Excel/BGExcelSheetReaderEntityRT.cs:164-197 | a row is abandoned when its id cannot be resolved, when its id is already registered, or when it has no id while new rows are ignored, ids come from a field or every mapped cell is empty; otherwise it is accepted under its id |
| ExcelEntityReader.StepShape | Assets/BansheeGz/BGDatabaseExcelRuntime/Scripts/Excel/BGExcelSheetReaderEntityRT.cs:158-211 | a row either leaves the accepted rows and registered ids alone, or appends one row read from its own cells whose id was not yet registered (and is then registered), or that has no id in a sheet that admits new rows |
| ExcelEntityReader.ExtendsRowsAccepted | Assets/BansheeGz/BGDatabaseExcelRuntime/Scripts/Excel/BGExcelSheetReaderEntityRT.cs:175-211 | appending a row as the row action does keeps every accepted row read from its cells, registered under its own row number, with distinct ids, and new rows admissible |
| ExcelEntityReader.StepRowsAccepted | Assets/BansheeGz/BGDatabaseExcelRuntime/Scripts/Excel/BGExcelSheetReaderEntityRT.cs:158-211 | one row action keeps the accepted rows consistent in that sense |
| ExcelEntityReader.StepCounters | Assets/BansheeGz/BGDatabaseExcelRuntime/Scripts/Excel/BGExcelSheetReaderEntityRT.cs:158-211 | one row action counts the row once, and the new and existing counters keep adding up to the accepted rows, with every registered id belonging to an accepted row |
| ExcelEntityReader.CountedRows | Assets/BansheeGz/BGDatabaseExcelRuntime/Scripts/Excel/BGExcelSheetReaderEntityRT.cs:156-161 | the rows counted are fewer than the enumerated rows, since the header is never counted |
| ExcelEntityReader.StepsErrKeeps | Assets/BansheeGz/BGDatabaseExcelRuntime/Scripts/Excel/BGExcelSheetReaderEntityRT.cs:204-211 | once a value cannot be read the import is aborted, and later rows do not change the error |
| ExcelEntityReader.StepsConsistent | Assets/BansheeGz/BGDatabaseExcelRuntime/Scripts/Excel/BGExcelSheetReaderEntityRT.cs:156-212 | a row loop that ends without an abort leaves every accepted row read from its cells with distinct registered ids, counters that agree with them, only registered ids of accepted rows, and every present row other than the header and row 0 counted |
| ExcelEntityReader.EntitySheetReader.ProcessRow | Assets/BansheeGz/BGDatabaseExcelRuntime/Scripts/Excel/BGExcelSheetReaderEntityRT.cs:158-211 | the row action counts the row and then does exactly what one step of the loop describes, or reports the error of a cell that could not be read |
| ExcelEntityReader.EntitySheetReader.ReadRows | Assets/BansheeGz/BGDatabaseExcelRuntime/Scripts/Excel/BGExcelSheetReaderEntityRT.cs:150-212 | without a header row or a mapped field nothing is read; otherwise the reader holds exactly the tally the loop over all rows gives and stays consistent, or the import is aborted with the unreadable cell's error |
| ExcelEntityReader.EnsureEffects | Assets/BansheeGz/BGDatabaseExcelRuntime/Scripts/Excel/BGExcelSheetReaderEntityRT.cs:290-312 | flushing a row creates its entity first, under the row's id or a fresh one, and otherwise at most writes the id cell |
| ExcelEntityReader.EntitySheetReader.EnsureEntity | Assets/BansheeGz/BGDatabaseExcelRuntime/Scripts/Excel/BGExcelSheetReaderEntityRT.cs:290-312 | the entity is the row's own or a fresh one, and the database records exactly its creation and, for a new entity with an id column, the id written into the row's id cell |
| ExcelEntityReader.FieldEffectsAreData | Assets/BansheeGz/BGDatabaseExcelRuntime/Scripts/Excel/BGExcelSheetReaderEntityRT.cs:226-240 | FlushData writes only non-relation fields with non-empty values |
| ExcelEntityReader.DataEffectsAreData | Assets/BansheeGz/BGDatabaseExcelRuntime/Scripts/Excel/BGExcelSheetReaderEntityRT.cs:215-242 | every write FlushData makes is an entity creation, an id cell or a non-relation field with a non-empty value |
| ExcelEntityReader.DataEffectsSnoc | Assets/BansheeGz/BGDatabaseExcelRuntime/Scripts/Excel/BGExcelSheetReaderEntityRT.cs:220-241 | FlushData handles the rows in order: each row's entity is ensured and then its fields are written |
| ExcelEntityReader.EntitySheetReader.SetFields | Assets/BansheeGz/BGDatabaseExcelRuntime/Scripts/Excel/BGExcelSheetReaderEntityRT.cs:226-240 | the inner loop writes the row's non-empty values of non-relation fields, in column order |
| ExcelEntityReader.EntitySheetReader.FlushRows | Assets/BansheeGz/BGDatabaseExcelRuntime/Scripts/Excel/BGExcelSheetReaderEntityRT.cs:220-241 | the row loop makes exactly the writes DataEffects lists for the accepted rows |
| ExcelEntityReader.EntitySheetReader.FlushData | Assets/BansheeGz/BGDatabaseExcelRuntime/Scripts/Excel/BGExcelSheetReaderEntityRT.cs:215-242 | a reader without data writes nothing; otherwise the database records exactly its rows' writes |
| ExcelEntityReader.ColumnRelationsAreRelations | Assets/BansheeGz/BGDatabaseExcelRuntime/Scripts/Excel/BGExcelSheetReaderEntityRT.cs:257-270 | a relation column's writes are relation writes of non-empty values |
| ExcelEntityReader.RelationEffectsAreRelations | Assets/BansheeGz/BGDatabaseExcelRuntime/Scripts/Excel/BGExcelSheetReaderEntityRT.cs:244-272 | FlushRelations writes only relation fields, with non-empty values |
| ExcelEntityReader.FlushColumn | Assets/BansheeGz/BGDatabaseExcelRuntime/Scripts/Excel/BGExcelSheetReaderEntityRT.cs:257-270 | the rows' non-empty values of one relation column are handed to its resolver, in row order |
| ExcelEntityReader.EntitySheetReader.FlushRelations | Assets/BansheeGz/BGDatabaseExcelRuntime/Scripts/Excel/BGExcelSheetReaderEntityRT.cs:244-272 | a reader without data writes nothing; otherwise the database records exactly the relation writes of its relation columns, column by column |
| ExcelEntityReader.Database.constructor | Assets/BansheeGz/BGDatabaseExcelRuntime/Scripts/Excel/BGExcelSheetReaderEntityRT.cs:65-70 | the database starts with no writes recorded |
| ExcelEntityReader.DataLogKinds | Assets/BansheeGz/BGDatabaseExcelRuntime/Scripts/Excel/BGExcelSheetReaderEntityRT.cs:67 | the data flushes of all readers write no relation |
| ExcelEntityReader.RelationLogKinds | Assets/BansheeGz/BGDatabaseExcelRuntime/Scripts/Excel/BGExcelSheetReaderEntityRT.cs:69 | the relation flushes of all readers write only relations |
| ExcelEntityReader.DataBeforeRelations | Assets/BansheeGz/BGDatabaseExcelRuntime/Scripts/Excel/BGExcelSheetReaderEntityRT.cs:65-70 | in the whole flush every relation write comes after every data write, so relations resolve against entities already created |
| ExcelEntityReader.FlushAllData | Assets/BansheeGz/BGDatabaseExcelRuntime/Scripts/Excel/BGExcelSheetReaderEntityRT.cs:67 | the readers' FlushData run in order and record exactly their data writes |
| ExcelEntityReader.FlushAllRelations | Assets/BansheeGz/BGDatabaseExcelRuntime/Scripts/Excel/BGExcelSheetReaderEntityRT.cs:69 | the readers' FlushRelations run in order and record exactly their relation writes |
| ExcelEntityReader.SelectedSound | Assets/BansheeGz/BGDatabaseExcelRuntime/Scripts/Excel/BGExcelSheetReaderEntityRT.cs:24-35 | every sheet read has a non-empty name that maps to its meta |
| ExcelEntityReader.SelectedDistinct | Assets/BansheeGz/BGDatabaseExcelRuntime/Scripts/Excel/BGExcelSheetReaderEntityRT.cs:24-35 | the sheets read come in workbook order and no two share a meta |
| ExcelEntityReader.SelectedComplete | Assets/BansheeGz/BGDatabaseExcelRuntime/Scripts/Excel/BGExcelSheetReaderEntityRT.cs:24-35 | every sheet with a non-empty name that maps to a meta is read, or its meta was taken by an earlier sheet |
| ExcelEntityReader.ReadSheetConsistent | Assets/BansheeGz/BGDatabaseExcelRuntime/Scripts/Excel/BGExcelSheetReaderEntityRT.cs:37-58 | a sheet read without an abort leaves its reader's tally consistent, with every counted row being a present row other than the header and row 0 |
| ExcelEntityReader.ReadUpToErrKeeps | Assets/BansheeGz/BGDatabaseExcelRuntime/Scripts/Excel/BGExcelSheetReaderEntityRT.cs:24-63 | once reading a sheet aborts, the later sheets do not change the error |
| ExcelEntityReader.BuildReader | Assets/BansheeGz/BGDatabaseExcelRuntime/Scripts/Excel/BGExcelSheetReaderEntityRT.cs:37-56 | a sheet without rows gets a reader without headers; otherwise its resolver comes from the factory (the id-column one without a factory) and the reader holds exactly what reading the sheet gives, or the factory's or the rows' error is returned |
| ExcelEntityReader.AddSheetReader | Assets/BansheeGz/BGDatabaseExcelRuntime/Scripts/Excel/BGExcelSheetReaderEntityRT.cs:31-62 | one selected sheet adds one reader, holding what reading that sheet gives, or stops with its error |
| ExcelEntityReader.BuildReaders | Assets/BansheeGz/BGDatabaseExcelRuntime/Scripts/Excel/BGExcelSheetReaderEntityRT.cs:22-63 | the readers are one per selected sheet, in order, each holding what reading its sheet gives, unless reading some sheet aborts |
| ExcelEntityReader.ReadEntities | Assets/BansheeGz/BGDatabaseExcelRuntime/Scripts/Excel/BGExcelSheetReaderEntityRT.cs:19-71 | an aborted read writes nothing; otherwise there is one reader per selected sheet, in order, and the database records every reader's data writes in order and then every reader's relation writes in order |

## Left out

- Remote I/O is not modelled. This covers Firebase Auth, Firestore reads, writes, batches and listeners, and the UnityWebRequest traffic. A call's success and its answer are parameters, and writes are kept as logs.
- Concurrency is not modelled: async/await interleavings, the shared sign-in task of the API client, Task.Delay between retries and main-thread dispatch. Each handler runs to completion on its own.
- Floating point is not modelled. A C# double is a Dafny real, and a JSON number's text, both printed and parsed, is the parameter pair `NumberFormat`. The cart tax `(long)(subtotal * 0.10)` is the parameter `taxOf`, and the FPT 10% rate is the exact fraction 1/10. A numeric cell's invariant-culture text is the parameter `numberText`.
- Library behaviour that is culture or platform data is a parameter:
  - the MailAddress check (`isValidEmail`);
  - Convert.FromBase64String followed by UTF-8 decoding (`decode`);
  - culture-sensitive ToLower (`lower`);
  - the culture string order used by OrderBy (`le`, a total preorder);
  - the "N0" rendering of a number (`n0`);
  - the text of a fresh id (Guid.NewGuid, BGId.NewId).
- The clock (`DateTime.UtcNow`) is the parameter `now`.
- Unity UI mechanics are reduced to booleans and strings: Instantiate/Destroy, colours, SetActive, scene loads and the status popups. Scene changes are an outcome value.
- The wiring-only screens are not modelled, because their gating reduces to `PackageConfig.HasFeature`. They are SalesManager, HomepageManager, SalesCustomerManager, SoftwareInfoPanelController, ButtonSceneChanger, the logout handlers, FirebaseInitializer, Testdatabase and the Android Excel picker. The ads SDK is not modelled either.
- The Excel plugin plumbing is not modelled: BGExcelImportGo, the editor windows, the import and export managers, the NPOI workbook reader and writer, and the entity sheet writer. The entity sheet writer's row choice is `GetRowIndex`, which is modelled.
- The three one-line resolvers (no id, string field, int field) and the abstract resolver are cases of the resolver datatype, not separate members.
- BGEntitySheetInfo (AddField, GetFieldColumn, GetFieldsInfo, HasAnyData) is not part of this model. The reader assumes it keeps one column per field: a later header for the same field replaces the column and keeps the field's first place, and GetFieldsInfo lists the fields in that order. The resolvers, IsRowEmpty, the row values and the flush all read this one mapping.
- The database's own field conversions (BGUtil.FromString, the relation resolvers' ToDatabase) and their caught exceptions are not modelled. A flush is the list of writes it attempts.
- JSONLazyCreator's write-through into its parent is not modelled. Only its reads are: an absent member reads as "", and it is not null under SimpleJSON's `==`.
- JsonText.UnEscape: a `\u` escape that names a UTF-16 surrogate code unit returns an error. The source appends that unit, which a Dafny `char` (a Unicode scalar value) cannot hold.
- JsonNode.ObjectNode.RemoveNode: the node is found by value equality, not by reference identity as in the source. So it removes the first child equal to the given tree.
- JsonNode.ArrayNode.RemoveNode: the same value-for-reference reading as for objects.
- Auth.CreateAccountSpec: strings are sequences of Unicode scalar values, so the six-character password minimum counts scalars. The source's `password.Length` counts UTF-16 code units, and a character outside the Basic Multilingual Plane counts twice there.
- ImportStockPanel.ImportStockPanelManager.OnConfirmImportButtonClicked: `stock += quantityToAdd` is unbounded here. The C# `long` addition wraps around on overflow, and nothing in the source guards it.
- Money and quantities elsewhere (prices, subtotals, stock decrements) are unbounded integers, for the same reason.
- FptApiClient.TruncateToLong: a double outside the `long` range converts to long.MinValue, as the x64 runtime does. C# leaves that conversion unspecified, and other platforms may give another value.
- Auth.LoadedShopSpec: `DateTime.MinValue.ToUniversalTime()` is the constant MinTimestamp (0001-01-01T00:00:00Z). In the source the conversion goes through the device's time zone, which the model does not take as an input.
- ShopSession.Session.SaveShopDataToPlayerPrefs: a null string property is stored as "". The source passes the null to Unity's PlayerPrefs.SetString, whose handling of null is engine behaviour outside this model.
- ExcelSheetWriter.SetCell: a write replaces the whole cell with a plain value cell. NPOI's SetCellValue on a formula cell keeps the formula and only changes its cached result, and setting a null string blanks the cell.
- ExcelSheetWriter.SheetWriter.Delete: requires the listed row numbers to be distinct and at or before the sheet's LastRowNum, which is what the sheet-info callers pass. Other lists are not modelled.
- ExcelSheetWriter.SheetWriter.Sheet: requires the workbook's sheet objects to be distinct, as NPOI's are.
- The workbook's formula evaluator is not modelled. For a cell in an array formula group, the type it reports is given as the cell's `resultType`, and the cell's cached values are read under that type, as ReadCell does.
- Logging (BGLogger, Debug.Log) and warnings are not modelled.
- The feature flags the sale and invoice handlers take (`hasSales`, `hasInventory`, `hasEInvoice`) are parameters. The source computes each one as `AppPackageConfig != null && AppPackageConfig.HasFeature(packageType, feature)` (Assets/Scripts/Sale/SalesFinalizeTransaction.cs:111-113). That predicate is PackageConfig.HasFeature, and the model does not recompute it inside the handlers.
- The Package, Shop info and E-invoice panels assign `_originalShopData = _currentEditableData` after a successful save, so both names then alias one object. The model copies the value instead. As written, the difference cannot be seen: after a successful save each panel leaves its save and cancel buttons disabled until SetupPanel makes a fresh copy. It can be seen under the corrected save, ShopInfoPanel.ShopInfoPanelController.OnSaveButtonClickedReenabling. There, a later refused or failed save would also change the original, and the model does not capture that.

## Findings

| source | as written | input that shows it | evidently intended | confidence | as-written member | corrected member |
|---|---|---|---|---|---|---|
| Assets/Scripts/setting/ShopInfoPanelController.cs:198-216 | the save disables the save and cancel buttons and re-enables them only when the save fails; on success it leaves edit mode with both disabled | save a complete shop with the network up, then press Edit: the save and cancel buttons show but accept no click | a successful save also re-enables both buttons, so a later edit can be saved or cancelled | not executed | ShopInfoPanel.ShopInfoPanelController.SaveThenEdit | ShopInfoPanel.ShopInfoPanelController.CorrectedSaveThenEdit |
| Assets/Scripts/Inventory/AddProductPanelManager.cs:223-261 | both buttons are disabled before the connection is checked, and the offline `return` happens before the `try` whose `finally` re-enables them | fill a valid product with the device offline and press Confirm: the panel keeps both buttons disabled | check the connection before disabling the buttons, as the import-stock panel does | not executed | AddProductPanel.AddProductPanelManager.OnConfirmAddButtonClicked | AddProductPanel.AddProductPanelManager.ConfirmAddCheckingOnlineFirst |
| Assets/Scripts/setting/ShopSettingManager.cs:478-516 | the cached shop (the session's own object) is extended in place before the batch commits | an expired shop redeems a valid voucher and CommitAsync fails: Firestore keeps the expired license, but the in-memory shop opens the homepage (ShopSetting.UncommittedExtensionOpensHomepage) | build the extended shop aside and cache it only after the commit succeeds | not executed | ShopSetting.ShopSettingManager.RedeemVoucher | ShopSetting.ShopSettingManager.RedeemVoucherCommittingFirst |
