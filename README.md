# Configuration factory of the Sling OSGi installer, modelled in Dafny

The Sling OSGi installer delivers configurations from resources such as
`.config` and `.cfg.json` files into the OSGi Configuration Admin store. It
also reports configurations edited by hand in the store back to the
installer. This project models the core of the installer's configuration
factory:

- **ConfigTaskCreator.** It turns a resource URL into a configuration resource. It turns a resource
  group into an install task, a remove task or a state change. It turns a Configuration
  Admin event into a call on the installer's resource change listener. It also
  removes the properties that merged resources (a merge scheme) supply anyway.
- **ConfigInstallTask and AbstractConfigTask.** They find or create the configuration
  for a resource and write the resource's dictionary into it. They keep the
  bundle location. They note the write in the shared ledger (the Coordinator) so that the
  listener does not report the task's own change back. The outcome is
  installed, ignored or retried.
- **ConfigUtil.** It holds the helpers that everything else uses:
  - comparing properties and dictionaries while ignoring administrative keys;
  - cleaning a dictionary;
  - LDAP filter encoding;
  - lookups by pid, by factory pid and by legacy alias;
  - the factory pid naming scheme `factoryPid~name`;
  - merging dictionaries;
  - removing redundant properties.
- **ConfigUpdateHandler.** It migrates groups installed under the old naming scheme
  (`factoryPid.generatedId` with an alias) to `factoryPid~name`. It moves
  the stored record to the new pid.
- **MetatypeHandler and ConfigurationMergerImpl.** They strip properties whose
  value equals the metatype default, and properties supplied by merged resources.
- **SortedDictionary.** A view on a dictionary that enumerates keys and elements in
  ascending key order.
- **ConfigurationSerializerWebConsolePlugin.** It decides which properties of a
  stored configuration the web console prints. It also escapes XML.

The Configuration Admin store, the Coordinator ledger, the installer API
types, OSGi filters and `java.util.Hashtable` are modelled in modules of
their own (`ConfigAdmin`, `Coordination`, `InstallerApi`, `Filters`,
`Values`), each limited to what the core relies on.

- **Classes.** Objects the source mutates in place are Dafny classes whose methods state
  their whole new state:
  - the store;
  - the ledger;
  - dictionaries;
  - resource groups;
  - the tasks;
  - the handlers.
- **Pure code.** It is written as functions, with lemmas for what the source promises:
  - a resource file name round-trips to its factory pid and name;
  - an installed configuration holds the resource's data;
  - a migrated record keeps its data under the new pid;
  - XML escaping is undone by unescaping;
  - the sorted enumeration is unique.
- **Java `null`.** It is `Option`.
- **Exceptions.** They are `Failure` values (`IOFailure`, `StateFailure`,
  `SyntaxFailure`, `RuntimeFailure`), and each of them is handled where the source catches it.

## Model

| member | source | states |
|---|---|---|
| ConfigUtil.IsSameValue | src/main/java/org/apache/sling/installer/factories/configuration/impl/ConfigUtil.java:115-144 | same value iff both are null, or both are arrays with equal string forms element by element, or both are scalars with equal string forms; an array never equals a scalar |
| ConfigUtil.SameValueIsEquivalence | src/main/java/org/apache/sling/installer/factories/configuration/impl/ConfigUtil.java:115-144 | the value comparison is reflexive, symmetric and transitive |
| ConfigUtil.SameValueThroughStringForm | src/main/java/org/apache/sling/installer/factories/configuration/impl/ConfigUtil.java:115-144 | the Integer 4 and the String "4" are different values but compare as the same; a one-element array never equals a scalar |
| ConfigUtil.CollectKeys | src/main/java/org/apache/sling/installer/factories/configuration/impl/ConfigUtil.java:59-78 | exactly the dictionary's keys other than the ignored administrative properties |
| ConfigUtil.IsSameData | src/main/java/org/apache/sling/installer/factories/configuration/impl/ConfigUtil.java:94-113 | true iff both dictionaries are present, have the same relevant keys, and the same value under each |
| ConfigUtil.CleanConfiguration | src/main/java/org/apache/sling/installer/factories/configuration/impl/ConfigUtil.java:149-160 | the copy holds exactly the relevant keys, with their original values |
| ConfigUtil.CleanedIsIdempotentAndSame | src/main/java/org/apache/sling/installer/factories/configuration/impl/ConfigUtil.java:149-160 | cleaning twice equals cleaning once, and a cleaned dictionary has the same data as the original |
| ConfigUtil.SameDataIgnoresAdministrativeKeys | src/main/java/org/apache/sling/installer/factories/configuration/impl/ConfigUtil.java:94-113 | dictionaries that differ only in administrative keys have the same data; a missing dictionary never has the same data as a present one |
| ConfigUtil.Encode | src/main/java/org/apache/sling/installer/factories/configuration/impl/ConfigUtil.java:165-170 | the encoded value is the value with each backslash, star and parenthesis escaped exactly once by a preceding backslash, and nothing else changed |
| ConfigUtil.ReplacementsEscapeEachCharacter | src/main/java/org/apache/sling/installer/factories/configuration/impl/ConfigUtil.java:165-170 | the four chained replacements, backslash first, escape each special character exactly once: the backslashes they add are not escaped again |
| ConfigUtil.EncodeLength | src/main/java/org/apache/sling/installer/factories/configuration/impl/ConfigUtil.java:165-170 | encoding adds one character per special character |
| ConfigUtil.EncodeParsesToLiteral | src/main/java/org/apache/sling/installer/factories/configuration/impl/ConfigUtil.java:165-170 | the encoded value, read by the filter parser as an equality value, is the original characters with no wildcard, and it does not start with `*` |
| ConfigUtil.EncodedAssertionIsExact | src/main/java/org/apache/sling/installer/factories/configuration/impl/ConfigUtil.java:212 | an equality assertion on an encoded value parses to a literal item, which holds exactly when the attribute is present and equals the value |
| ConfigUtil.ToBoolean | src/main/java/org/apache/sling/installer/factories/configuration/impl/ConfigUtil.java:273-283 | a missing value gives the default; a scalar is true iff its string form is "true" in any case; an array is false |
| ConfigUtil.ToBooleanExamples | src/main/java/org/apache/sling/installer/factories/configuration/impl/ConfigUtil.java:273-283 | Boolean false is false, "TRUE" is true, "yes" is false even with default true, and null keeps the default |
| ConfigUtil.GetPIDOfFactoryPID | src/main/java/org/apache/sling/installer/factories/configuration/impl/ConfigUtil.java:291-293 | the pid is the factory pid, a tilde and the name, in that order |
| ConfigUtil.FactoryPidSplitsAtFirstTilde | src/main/java/org/apache/sling/installer/factories/configuration/impl/ConfigUtil.java:291-293 | when the factory pid has no tilde, the first tilde of the pid separates factory pid and name |
| ConfigUtil.DictionaryList.Reverse | src/main/java/org/apache/sling/installer/factories/configuration/impl/ConfigUtil.java:300-307 | the list is reversed in place (Collections.reverse) |
| ConfigUtil.MergeReverseOrder | src/main/java/org/apache/sling/installer/factories/configuration/impl/ConfigUtil.java:300-307 | merging the reversed list gives each key the value of the first dictionary in the original list that has it, and leaves the list reversed |
| ConfigUtil.MergeReversedIsFirstWins | src/main/java/org/apache/sling/installer/factories/configuration/impl/ConfigUtil.java:300-320 | merging a reversed list left to right equals taking each key from its first holder |
| ConfigUtil.FirstWinsKeys | src/main/java/org/apache/sling/installer/factories/configuration/impl/ConfigUtil.java:300-320 | the merged keys are exactly the keys of the dictionaries in the list |
| ConfigUtil.FirstWinsValue | src/main/java/org/apache/sling/installer/factories/configuration/impl/ConfigUtil.java:300-320 | a key takes its value from the first dictionary that holds it |
| ConfigUtil.Merge | src/main/java/org/apache/sling/installer/factories/configuration/impl/ConfigUtil.java:314-320 | the base dictionary afterwards holds its old entries overridden by the new properties |
| ConfigUtil.RemoveRedundantProperties | src/main/java/org/apache/sling/installer/factories/configuration/impl/ConfigUtil.java:327-339 | the dictionary loses exactly the keys whose value the base holds with the same value, and nothing else |
| ConfigUtil.WithoutRedundantOnlyRemoves | src/main/java/org/apache/sling/installer/factories/configuration/impl/ConfigUtil.java:327-339 | removing redundant properties only removes, keeps every key the base lacks, changes nothing against an empty base, and is idempotent |
| ConfigUtil.FilterMeansCriterion | src/main/java/org/apache/sling/installer/factories/configuration/impl/ConfigUtil.java:212-262 | every lookup filter text, with all of its values encoded, is accepted by the filter parser, and the parsed filter selects a current record exactly when the record meets the lookup's criterion |
| ConfigUtil.ListedHeadIsFirstSatisfying | src/main/java/org/apache/sling/installer/factories/configuration/impl/ConfigUtil.java:213-216 | the first listed record is the first record in the store that meets the criterion, and the listing is empty iff none does |
| ConfigUtil.ListedHead | src/main/java/org/apache/sling/installer/factories/configuration/impl/ConfigUtil.java:213-216 | a syntax error exactly when the filter parser rejects the filter text; otherwise a current stored record that the parsed filter selects, or none only when it selects no current stored record |
| ConfigUtil.QueryFirst | src/main/java/org/apache/sling/installer/factories/configuration/impl/ConfigUtil.java:213-216 | an unavailable store fails with an I/O error; otherwise a syntax error exactly when the filter text does not parse, else the first stored record the parsed filter selects, or none |
| ConfigUtil.FindConfiguration | src/main/java/org/apache/sling/installer/factories/configuration/impl/ConfigUtil.java:199-236 | without creating: the first record with that pid, or with that factory pid and the combined pid; none only when no record matches; an unavailable store fails |
| ConfigUtil.CreateConfiguration | src/main/java/org/apache/sling/installer/factories/configuration/impl/ConfigUtil.java:182-186 | the record under the pid (or factoryPid~name) is returned, and created with the location when it does not exist |
| ConfigUtil.GetLegacyFactoryConfig | src/main/java/org/apache/sling/installer/factories/configuration/impl/ConfigUtil.java:238-271 | an alias shorter than the factory pid plus one fails; otherwise, on a reachable store, the legacy lookup: by factory pid and name, by factory pid and dotted name, then by the alias filter with the factory pid unencoded |
| ConfigUtil.GetConfiguration | src/main/java/org/apache/sling/installer/factories/configuration/impl/ConfigUtil.java:172-180 | the direct lookup, falling back to the legacy factory lookup only for a factory pid with no direct hit |
| ConfigUtil.LegacyLookupFindsStoredRecord | src/main/java/org/apache/sling/installer/factories/configuration/impl/ConfigUtil.java:238-271 | whatever the legacy lookup returns is a current stored record; it fails only in encode for a null pid; with a pid, it fails with a syntax error exactly when the first two queries find nothing and the alias filter text, with the factory pid unencoded, does not parse |
| ConfigUtil.PlainFactoryPidFindsOwnRecord | src/main/java/org/apache/sling/installer/factories/configuration/impl/ConfigUtil.java:238-271 | for a factory pid without filter-special characters the lookup never fails and finds only records of that factory; finding none means no record of the factory carries the alias |
| ConfigUtil.AliasFilterAsWrittenMisreadsFactoryPid | src/main/java/org/apache/sling/installer/factories/configuration/impl/ConfigUtil.java:260-262 | for factory pid "a*" the alias filter as written parses and selects a record of factory "ab" that does not meet the criterion, and the lookup returns that record |
| ConfigUtil.AliasFilterAsWrittenBreaksOnParenthesis | src/main/java/org/apache/sling/installer/factories/configuration/impl/ConfigUtil.java:260-262 | for factory pid "a(" or "a)" the alias filter as written does not parse, and the lookup fails with a syntax error |
| ConfigUtil.AliasFilterAsWrittenInjectsAssertion | src/main/java/org/apache/sling/installer/factories/configuration/impl/ConfigUtil.java:260-262 | for factory pid "a)(x=y" the alias filter as written parses as three assertions, and the lookup returns a record of factory "a" with x=y that does not meet the criterion |
| ConfigTaskCreator.CreateTask | src/main/java/org/apache/sling/installer/factories/configuration/impl/ConfigTaskCreator.java:104-126 | non-configuration groups get no task; uninstalling gives a state change when the next resource takes over, otherwise a remove task; anything else an install task |
| ConfigTaskCreator.ScanGroup | src/main/java/org/apache/sling/installer/factories/configuration/impl/ConfigTaskCreator.java:182-206 | appends the group's resources for the entity whose scheme is a merge scheme, in order, and reports whether any resource was for the entity |
| ConfigTaskCreator.GetDefaultProperties | src/main/java/org/apache/sling/installer/factories/configuration/impl/ConfigTaskCreator.java:182-206 | the merged dictionaries of the resources with a merge scheme in groups up to and including the first holding the entity, the first such resource winning; none when merging is off or none qualifies |
| ConfigTaskCreator.LaterGroupsIgnored | src/main/java/org/apache/sling/installer/factories/configuration/impl/ConfigTaskCreator.java:182-206 | groups after the first group holding the entity do not contribute |
| ConfigTaskCreator.NoQualifyingResourceNoDefaults | src/main/java/org/apache/sling/installer/factories/configuration/impl/ConfigTaskCreator.java:182-206 | without a resource for the entity with a merge scheme, and always without merge schemes, there are no defaults |
| ConfigTaskCreator.CollectedComeFromQualifyingResources | src/main/java/org/apache/sling/installer/factories/configuration/impl/ConfigTaskCreator.java:182-206 | every collected dictionary is the dictionary of a resource for the entity with a merge scheme |
| ConfigTaskCreator.RemoveDefaultProperties | src/main/java/org/apache/sling/installer/factories/configuration/impl/ConfigTaskCreator.java:208-215 | the dictionary loses exactly the properties the merged defaults hold with the same value |
| ConfigTaskCreator.WithoutDefaultsOnlyRemoves | src/main/java/org/apache/sling/installer/factories/configuration/impl/ConfigTaskCreator.java:208-215 | removing defaults only removes keys and keeps values; without merge schemes nothing changes |
| ConfigTaskCreator.ConfigurationEvent | src/main/java/org/apache/sling/installer/factories/configuration/impl/ConfigTaskCreator.java:132-180 | a delete the ledger did not expect reports a removal; an update, when the record exists and the ledger did not expect it, reports the cleaned properties without merged defaults, with pid, factory pid, persistence and location attributes; the matching ledger entry is consumed; anything else reports nothing |
| ConfigTaskCreator.SeparatorsToUnix | src/main/java/org/apache/sling/installer/factories/configuration/impl/ConfigTaskCreator.java:297-302 | null stays null; every backslash becomes a slash and every other character stays |
| ConfigTaskCreator.GetResourceId | src/main/java/org/apache/sling/installer/factories/configuration/impl/ConfigTaskCreator.java:228-242 | the id is the suffix after the last slash, or after the first colon when there is no slash, and contains no separator |
| ConfigTaskCreator.RemoveConfigExtension | src/main/java/org/apache/sling/installer/factories/configuration/impl/ConfigTaskCreator.java:281-289 | strips the first listed extension the id ends with, or leaves the id when none matches |
| ConfigTaskCreator.RemoveConfigExtensionRoundTrip | src/main/java/org/apache/sling/installer/factories/configuration/impl/ConfigTaskCreator.java:281-289 | a name followed by any supported extension gives back the name |
| ConfigTaskCreator.SplitIndex | src/main/java/org/apache/sling/installer/factories/configuration/impl/ConfigTaskCreator.java:258-261 | splits at the first tilde, or at the first hyphen when there is no tilde |
| ConfigTaskCreator.CheckConfiguration | src/main/java/org/apache/sling/installer/factories/configuration/impl/ConfigTaskCreator.java:248-279 | a split index after the start makes a factory configuration with factory pid, name and combined id; otherwise a plain configuration whose id is the pid |
| ConfigTaskCreator.Transform | src/main/java/org/apache/sling/installer/factories/configuration/impl/ConfigTaskCreator.java:221-226 | only properties resources are transformed, into exactly one configuration |
| ConfigTaskCreator.CheckConfigurationRoundTrip | src/main/java/org/apache/sling/installer/factories/configuration/impl/ConfigTaskCreator.java:228-279 | a file named factoryPid~name plus an extension, in any directory, yields that factory pid, that name and the combined id |
| ConfigTaskCreator.ResourceIdOfPath | src/main/java/org/apache/sling/installer/factories/configuration/impl/ConfigTaskCreator.java:228-242 | the resource id of dir/file is the file name |
| AbstractConfigTask.NewConfigTask | src/main/java/org/apache/sling/installer/factories/configuration/impl/AbstractConfigTask.java:46-51 | the task keeps the resource and reads its pid and factory pid attributes |
| AbstractConfigTask.RealPid | src/main/java/org/apache/sling/installer/factories/configuration/impl/AbstractConfigTask.java:57-63 | the pid itself, or factoryPid~pid for a factory configuration |
| AbstractConfigTask.Dictionary | src/main/java/org/apache/sling/installer/factories/configuration/impl/AbstractConfigTask.java:72-74 | the resource's dictionary |
| AbstractConfigTask.RealPidIsTransformationId | src/main/java/org/apache/sling/installer/factories/configuration/impl/AbstractConfigTask.java:57-63 | a task made for a transformed resource stores it under the id the transformation gave it |
| ConfigInstallTask.InstallTask.constructor | src/main/java/org/apache/sling/installer/factories/configuration/impl/ConfigInstallTask.java:39-41 | the task is made from the group's active resource and is not finished |
| ConfigInstallTask.InstallTask.SortKey | src/main/java/org/apache/sling/installer/factories/configuration/impl/ConfigInstallTask.java:44-46 | the install order prefix followed by the real pid |
| ConfigInstallTask.SortKeysOrderByRealPid | src/main/java/org/apache/sling/installer/factories/configuration/impl/ConfigInstallTask.java:44-46 | install tasks sort among themselves exactly as their real pids sort |
| ConfigInstallTask.BundleLocation | src/main/java/org/apache/sling/installer/factories/configuration/impl/ConfigInstallTask.java:55-60 | the default location when the dictionary has none; null for an empty location; the string otherwise; a missing dictionary or a non-string location fails |
| ConfigInstallTask.Settled | src/main/java/org/apache/sling/installer/factories/configuration/impl/ConfigInstallTask.java:89-95 | store and state failures retry; any other failure ends the task as ignored |
| ConfigInstallTask.Existing | src/main/java/org/apache/sling/installer/factories/configuration/impl/ConfigInstallTask.java:62-66 | the record found is a current stored record and the direct hit when there is one; only the legacy lookup of a factory configuration can fail, with a syntax error; for a factory pid without special characters it never fails and finds only records of that factory |
| ConfigInstallTask.Execution | src/main/java/org/apache/sling/installer/factories/configuration/impl/ConfigInstallTask.java:49-97 | a bad location and a failed lookup end the task ignored and an unavailable store retries, all with no change; only an install changes the store, and it records one non-delete operation |
| ConfigInstallTask.InstalledHoldsResourceData | src/main/java/org/apache/sling/installer/factories/configuration/impl/ConfigInstallTask.java:62-88 | the store keeps one record per pid; an installed task leaves a record with the resource's data; the recorded operation names the record holding exactly the resource's dictionary |
| ConfigInstallTask.NewRecordCarriesLocation | src/main/java/org/apache/sling/installer/factories/configuration/impl/ConfigInstallTask.java:62-88 | a resource with no record creates one under its real pid with its dictionary and location, and records that write |
| ConfigInstallTask.SameDataSkipsWrite | src/main/java/org/apache/sling/installer/factories/configuration/impl/ConfigInstallTask.java:68-71 | a found record that already holds the resource's data is not written: the store and the ledger stay as they were, and the task ends installed |
| ConfigInstallTask.DifferentDataRebindsRecord | src/main/java/org/apache/sling/installer/factories/configuration/impl/ConfigInstallTask.java:72-84 | a found record with other data is rebound to the resource's location and given its dictionary under the same pid, one update of that pid is recorded, and every other record is unchanged |
| ConfigInstallTask.InstallTask.Execute | src/main/java/org/apache/sling/installer/factories/configuration/impl/ConfigInstallTask.java:49-97 | the store and the ledger change as the execution says, and the task's state becomes the outcome when it is final |
| ConfigInstallTask.InstallResource | src/main/java/org/apache/sling/installer/factories/configuration/impl/ConfigInstallTask.java:49-97 | the outcome, the store and the ledger are those of the execution |
| ConfigUpdateHandler.FactoryPidAndPid | src/main/java/org/apache/sling/installer/factories/configuration/impl/ConfigUpdateHandler.java:86-99 | the factory pid is the alias up to the last dot inside the common prefix of alias and old id, and the old id is that factory pid, a dot and the pid |
| ConfigUpdateHandler.GetFactoryPidAndPid | src/main/java/org/apache/sling/installer/factories/configuration/impl/ConfigUpdateHandler.java:86-99 | the loop finds the common prefix and the last dot in it, as the decoding says |
| ConfigUpdateHandler.NestedAliasDecodes | src/main/java/org/apache/sling/installer/factories/configuration/impl/ConfigUpdateHandler.java:86-99 | an alias factory.X and an id factory.Y, where X and Y share a dot-free prefix before differing, decode to the factory pid and Y |
| ConfigUpdateHandler.LegacyAliasExampleFragment | src/test/java/org/apache/sling/installer/factories/configuration/impl/ConfigUpdateHandlerTest.java:36-38 | the login admin whitelist example decodes to its factory pid and "my-platform" |
| ConfigUpdateHandler.LegacyAliasExampleCloud | src/test/java/org/apache/sling/installer/factories/configuration/impl/ConfigUpdateHandlerTest.java:40-43 | the content cleanup example decodes to its factory pid and "cloud" |
| ConfigUpdateHandler.LegacyAliasExampleContentPackages | src/test/java/org/apache/sling/installer/factories/configuration/impl/ConfigUpdateHandlerTest.java:45-48 | the content cleanup example decodes to its factory pid and "contentpackages" |
| ConfigUpdateHandler.MigrationMovesRecord | src/main/java/org/apache/sling/installer/factories/configuration/impl/ConfigUpdateHandler.java:118-128 | after the migration the old pid is gone, and the new pid holds the cleaned legacy properties, the factory pid and the location, with the same data |
| ConfigUpdateHandler.Handler.UpdateFactoryConfig | src/main/java/org/apache/sling/installer/factories/configuration/impl/ConfigUpdateHandler.java:101-133 | the group gets the new pid, loses its alias and is committed once; the store is migrated when the legacy record exists, and left alone on a store failure |
| ConfigUpdateHandler.Handler.MigrateLegacyRecord | src/main/java/org/apache/sling/installer/factories/configuration/impl/ConfigUpdateHandler.java:118-131 | the store after the legacy lookup and the move, unchanged when the lookup fails or finds nothing |
| ConfigUpdateHandler.Handler.MoveLegacyRecord | src/main/java/org/apache/sling/installer/factories/configuration/impl/ConfigUpdateHandler.java:121-127 | the new record gets the cleaned legacy properties and location, and the legacy record is deleted |
| ConfigUpdateHandler.Handler.UpdateGroup | src/main/java/org/apache/sling/installer/factories/configuration/impl/ConfigUpdateHandler.java:77-84 | only an active handler migrates a configuration group with an alias: the group is renamed, loses its alias and is committed, and the store is as the legacy migration leaves it; other groups and the store are unchanged |
| ConfigUpdateHandler.Handler.Update | src/main/java/org/apache/sling/installer/factories/configuration/impl/ConfigUpdateHandler.java:70-75 | every group is handled as its kind says, and the listener is told once that updating finished |
| MetatypeHandler.ShouldSetArray | src/main/java/org/apache/sling/installer/factories/configuration/impl/MetatypeHandler.java:103-113 | on a one-element array, with at most one default, it answers as the single-value check does: the value is not set when it equals the default, or is empty without a default |
| MetatypeHandler.ShouldSetScalar | src/main/java/org/apache/sling/installer/factories/configuration/impl/MetatypeHandler.java:93-101 | fails with an index error exactly when the default is an empty array |
| MetatypeHandler.ShouldSetOverloadsAgree | src/main/java/org/apache/sling/installer/factories/configuration/impl/MetatypeHandler.java:93-113 | for a definition with at most one default, the scalar check does not fail and agrees with the one-element array check, and a value is kept unless it equals the default, or is empty without a default |
| MetatypeHandler.ShouldSetScalarReadsFirstDefault | src/main/java/org/apache/sling/installer/factories/configuration/impl/MetatypeHandler.java:93-113 | a scalar equal to the first of several defaults is dropped by the scalar check but kept by the array check; with an empty default the scalar check fails while the array check drops only the empty array |
| MetatypeHandler.Handler.GetObjectClassDefinition | src/main/java/org/apache/sling/installer/factories/configuration/impl/MetatypeHandler.java:76-91 | the definition from the first bundle whose metatype information defines the pid, or none |
| MetatypeHandler.Handler.UpdateConfiguration | src/main/java/org/apache/sling/installer/factories/configuration/impl/MetatypeHandler.java:43-74 | without a definition nothing changes; otherwise the properties are stripped definition by definition as the stripping says, stopping with a runtime failure at the first single-valued definition with an empty default that applies |
| MetatypeHandler.StrippedOnlyRemoves | src/main/java/org/apache/sling/installer/factories/configuration/impl/MetatypeHandler.java:43-74 | stripping only removes, keeps keys in the default properties and keys with no attribute definition, and throws only where a single-valued definition with an empty default applies to a property |
| MetatypeHandler.StripAll | src/main/java/org/apache/sling/installer/factories/configuration/impl/MetatypeHandler.java:56-72 | the loop leaves exactly the stripped properties and reports the failure exactly when the stripping throws |
| MetatypeHandler.HandleDefinition | src/main/java/org/apache/sling/installer/factories/configuration/impl/MetatypeHandler.java:57-71 | one definition throws exactly when it applies and is single-valued with an empty default; otherwise its property is removed exactly when the metatype would supply it |
| MetatypeHandler.EmptyMultiValuedDefaultIsLegal | src/main/java/org/apache/sling/installer/factories/configuration/impl/MetatypeHandler.java:103-113 | a multi-valued definition with an empty default removes an empty array and keeps any other value, without failing |
| MetatypeHandler.EmptySingleValuedDefaultThrows | src/main/java/org/apache/sling/installer/factories/configuration/impl/MetatypeHandler.java:93-101 | a single-valued definition with an empty default throws on any property it applies to |
| MetatypeHandler.StrippedExample | src/test/java/org/apache/sling/installer/factories/configuration/impl/MetatypeHandlerTest.java:52-114 | the test's properties lose c, e and f and keep a, d and g |
| SortedDictionary.SortedDictionary.Size | src/main/java/org/apache/sling/installer/factories/configuration/impl/SortedDictionary.java:46-48 | the number of keys of the delegate |
| SortedDictionary.SortedDictionary.IsEmpty | src/main/java/org/apache/sling/installer/factories/configuration/impl/SortedDictionary.java:55-57 | empty iff the delegate has no entry |
| SortedDictionary.SortedDictionary.Get | src/main/java/org/apache/sling/installer/factories/configuration/impl/SortedDictionary.java:74-76 | the delegate's value, or null when the key is absent |
| SortedDictionary.SortedDictionary.Keys | src/main/java/org/apache/sling/installer/factories/configuration/impl/SortedDictionary.java:59-61 | every key once, in strictly ascending order |
| SortedDictionary.SortedDictionary.Elements | src/main/java/org/apache/sling/installer/factories/configuration/impl/SortedDictionary.java:63-72 | the values in the ascending order of their keys |
| SortedDictionary.SortedDictionary.Put | src/main/java/org/apache/sling/installer/factories/configuration/impl/SortedDictionary.java:87-89 | writes through to the delegate and returns the previous value |
| SortedDictionary.SortedDictionary.Remove | src/main/java/org/apache/sling/installer/factories/configuration/impl/SortedDictionary.java:91-93 | removes from the delegate and returns the previous value |
| SortedDictionary.EqualsMeansSameEntries | src/main/java/org/apache/sling/installer/factories/configuration/impl/SortedDictionary.java:78-85 | two views are equal iff their delegates hold the same entries |
| SortedDictionary.Insert | src/main/java/org/apache/sling/installer/factories/configuration/impl/SortedDictionary.java:106-112 | adding a key to a sorted set keeps it sorted, adds exactly that key, and adds nothing when it is present |
| SortedDictionary.SortedIsUnique | src/main/java/org/apache/sling/installer/factories/configuration/impl/SortedDictionary.java:106-112 | two strictly sorted sequences with the same elements are equal, so the enumeration order does not depend on the delegate |
| SortedDictionary.SortedKeysExample | src/test/java/org/apache/sling/installer/factories/configuration/impl/SortedDictionaryTest.java:33-83 | the keys Z, A, B enumerate as A, B, Z |
| ConfigurationMergerImpl.ConfigurationMerger.GetDefaultProperties | src/main/java/org/apache/sling/installer/factories/configuration/impl/ConfigurationMergerImpl.java:66-90 | the same merged defaults as the task creator computes, and none when merging is off |
| ConfigurationMergerImpl.ConfigurationMerger.RemoveDefaultProperties | src/main/java/org/apache/sling/installer/factories/configuration/impl/ConfigurationMergerImpl.java:47-63 | the dictionary loses exactly the properties the merged defaults hold with the same value |
| ConfigurationSerializerWebConsolePlugin.SerializationFormat | src/main/java/org/apache/sling/installer/factories/configuration/impl/ConfigurationSerializerWebConsolePlugin.java:127-134 | JSON for a missing, blank or unknown format; otherwise the named format |
| ConfigurationSerializerWebConsolePlugin.FormatNameRoundTrip | src/main/java/org/apache/sling/installer/factories/configuration/impl/ConfigurationSerializerWebConsolePlugin.java:127-134 | every offered format is selected by its own name |
| ConfigurationSerializerWebConsolePlugin.Flags | src/main/java/org/apache/sling/installer/factories/configuration/impl/ConfigurationSerializerWebConsolePlugin.java:106-114 | with no format parameter all three removals are on; otherwise each follows its own parameter |
| ConfigurationSerializerWebConsolePlugin.EscapeXml | src/main/java/org/apache/sling/installer/factories/configuration/impl/ConfigurationSerializerWebConsolePlugin.java:328-351 | null stays null; otherwise each of the five markup characters becomes its entity and every other character is copied |
| ConfigurationSerializerWebConsolePlugin.XmlEscapedHasNoMarkup | src/main/java/org/apache/sling/installer/factories/configuration/impl/ConfigurationSerializerWebConsolePlugin.java:328-351 | escaped text holds no markup character, and text with no markup or ampersand is unchanged |
| ConfigurationSerializerWebConsolePlugin.XmlEscapeRoundTrip | src/main/java/org/apache/sling/installer/factories/configuration/impl/ConfigurationSerializerWebConsolePlugin.java:328-351 | unescaping the escaped text gives back the original text |
| ConfigurationSerializerWebConsolePlugin.Relevant | src/main/java/org/apache/sling/installer/factories/configuration/impl/ConfigurationSerializerWebConsolePlugin.java:363-366 | exactly the components that list the effective pid among their configuration pids |
| ConfigurationSerializerWebConsolePlugin.WithoutComponentDefaultsAsWritten | src/main/java/org/apache/sling/installer/factories/configuration/impl/ConfigurationSerializerWebConsolePlugin.java:369-377 | a key stays iff some relevant component declares another value for it or the merged properties set it |
| ConfigurationSerializerWebConsolePlugin.AsWrittenDropsEverythingWithoutComponents | src/main/java/org/apache/sling/installer/factories/configuration/impl/ConfigurationSerializerWebConsolePlugin.java:372-374 | with no component for the pid the code as written drops every key, while the corrected removal keeps them all |
| ConfigurationSerializerWebConsolePlugin.AsWrittenDropsMergedKey | src/main/java/org/apache/sling/installer/factories/configuration/impl/ConfigurationSerializerWebConsolePlugin.java:372-374 | a property set by the merged resources is dropped as written for a pid no component uses, and kept by the corrected removal |
| ConfigurationSerializerWebConsolePlugin.WithoutComponentDefaults | src/main/java/org/apache/sling/installer/factories/configuration/impl/ConfigurationSerializerWebConsolePlugin.java:362-378 | a key is removed iff some component is relevant, all relevant components declare the same value and the merged properties do not set it; keys set by the merged properties always stay |
| ConfigurationSerializerWebConsolePlugin.RemoveComponentDefaultProperties | src/main/java/org/apache/sling/installer/factories/configuration/impl/ConfigurationSerializerWebConsolePlugin.java:362-378 | the dictionary afterwards keeps exactly the keys for which some relevant component declares another value or the merged properties set the key, so with no relevant component it is empty |
| ConfigurationSerializerWebConsolePlugin.MetatypeStripped | src/main/java/org/apache/sling/installer/factories/configuration/impl/ConfigurationSerializerWebConsolePlugin.java:243-245 | the metatype stage keeps a subset of the properties with their values, and changes nothing without a definition |
| ConfigurationSerializerWebConsolePlugin.WebConsolePlugin.MergedDefaults | src/main/java/org/apache/sling/installer/factories/configuration/impl/ConfigurationSerializerWebConsolePlugin.java:123-126 | the merged defaults of the pid, empty when there are none |
| ConfigurationSerializerWebConsolePlugin.WebConsolePlugin.RequestDefaults | src/main/java/org/apache/sling/installer/factories/configuration/impl/ConfigTaskCreator.java:182-185 | the lookup made before the pid is checked fails exactly when there is no pid and merge schemes are set, and otherwise gives the pid's merged defaults |
| ConfigurationSerializerWebConsolePlugin.WebConsolePlugin.PrintedPidDefaults | src/main/java/org/apache/sling/installer/factories/configuration/impl/ConfigurationSerializerWebConsolePlugin.java:123-126 | the guarded lookup gives no defaults for a missing or blank pid |
| ConfigurationSerializerWebConsolePlugin.WebConsolePlugin.RequestDefaultsFailWithoutPid | src/main/java/org/apache/sling/installer/factories/configuration/impl/ConfigurationSerializerWebConsolePlugin.java:123 | the guarded lookup agrees with the lookup as written for every printed pid, while the lookup as written fails on a request without a pid when merge schemes are set |
| ConfigurationSerializerWebConsolePlugin.WebConsolePlugin.PrintedOnlyRemoves | src/main/java/org/apache/sling/installer/factories/configuration/impl/ConfigurationSerializerWebConsolePlugin.java:241-262 | the page prints properties or the error; printed properties are the cleaned properties restricted to some keys, exactly the cleaned ones with all stages off; the error only when the metatype stage ran into a single-valued definition with an empty default |
| ConfigurationSerializerWebConsolePlugin.WebConsolePlugin.Service | src/main/java/org/apache/sling/installer/factories/configuration/impl/ConfigurationSerializerWebConsolePlugin.java:96-270 | without a pid the request fails when merge schemes are set and prints only the form otherwise, as for a blank pid; else the record is fetched (created when missing), an unavailable store fails, a record without properties says so, and otherwise the printout is that of the record with the selected stages |
| Coordination.Coordinator.Get | src/main/java/org/apache/sling/installer/factories/configuration/impl/ConfigTaskCreator.java:138 | removes and returns the first operation matching pid, factory pid and kind; leaves the ledger alone when none matches |
| Coordination.AddedOperationIsTaken | src/main/java/org/apache/sling/installer/factories/configuration/impl/ConfigInstallTask.java:83-84 | an operation added by the install task is the one the listener takes for the same pid and kind |
| ConfigAdmin.ConfigurationAdmin.GetConfiguration | src/main/java/org/apache/sling/installer/factories/configuration/impl/ConfigUtil.java:210 | returns the record under the pid, creating it with the location when missing, or fails with an I/O error |
| ConfigAdmin.ConfigurationAdmin.GetFactoryConfiguration | src/main/java/org/apache/sling/installer/factories/configuration/impl/ConfigUtil.java:220 | returns the record under factoryPid~name, creating it when missing, or fails with an I/O error |
| ConfigAdmin.ConfigurationAdmin.ListConfigurations | src/main/java/org/apache/sling/installer/factories/configuration/impl/ConfigUtil.java:213 | an unavailable store fails with an I/O error whatever the filter; on a reachable store, the filter string is parsed as the framework parses it: a syntax error exactly when it does not parse, else the current records the parsed filter selects, in store order |
| ConfigAdmin.ConfigurationAdmin.Update | src/main/java/org/apache/sling/installer/factories/configuration/impl/ConfigInstallTask.java:79 | replaces the properties of the record under the pid and nothing else; a deleted record or unavailable store fails |
| ConfigAdmin.ConfigurationAdmin.SetBundleLocation | src/main/java/org/apache/sling/installer/factories/configuration/impl/ConfigInstallTask.java:73 | replaces the location of the record under the pid and nothing else |
| ConfigAdmin.ConfigurationAdmin.Delete | src/main/java/org/apache/sling/installer/factories/configuration/impl/ConfigUpdateHandler.java:127 | removes the record under the pid and nothing else |
| ConfigAdmin.FindsReplacement | src/main/java/org/apache/sling/installer/factories/configuration/impl/ConfigInstallTask.java:77-85 | after a record is replaced, looking up its pid finds the new record, and pids stay unique |
| ConfigAdmin.ObtainedIsFound | src/main/java/org/apache/sling/installer/factories/configuration/impl/ConfigUtil.java:182-186 | the obtained record is the one the store then holds under its pid, and pids stay unique |

## Left out

- Logging, the OSGi service wiring and `Activator` are not modelled. The default bundle location and the merge schemes (`Activator.java` lines 44 and 56) are parameters.
- Coordinator.java is not part of this model. The ledger is modelled as a sequence from which `get` takes the first matching operation; how old entries expire is not modelled.
- ServicesListener is reduced to its `isActive` flag and a count of `finishedUpdating` calls. Starting and stopping services is left out.
- Synchronization on the shared ledger and concurrent events are not modelled: every operation runs alone.
- A store that fails is modelled as unavailable for the whole operation. A failure between two writes of one operation (for example after the new record is created but before the legacy record is deleted) is not modelled.
- ConfigUtil.getPid is not part of this model: ConfigTaskCreator.ConfigurationEvent takes the resource pid it would compute as a parameter.
- The standard converter that MetatypeHandler uses to turn values into strings is a function parameter.
- The web console's HTML output, the serializers, `getResource` and the static resources are left out. ConfigurationSerializerWebConsolePlugin.WebConsolePlugin.Service returns what would be serialized.
- Keys (SortedDictionary.SortedDictionary.Keys) orders keys by Unicode code point, while `String.compareTo` compares UTF-16 code units. The two orders differ only between a key with a character above U+FFFF and a key with a character from U+E000 to U+FFFF at the first difference; there the model's order is not Java's.
- Elements (SortedDictionary.SortedDictionary.Elements) follows the key order of Keys, so it differs from Java's order in the same cases.
- SortedDictionary's `hashCode` and `toString` are left out. So is Java's reference identity of arrays; values compare structurally.
- AbstractConfigTask.NewConfigTask requires a String `service.pid` attribute, which every resource the transformer makes carries.
- ConfigUpdateHandler.Handler.Update states each group's new state but not the store after the whole loop; the store effect of one group is stated by ConfigUpdateHandler.Handler.UpdateGroup and ConfigUpdateHandler.Handler.UpdateFactoryConfig.
- ConfigUpdateHandler.Handler.UpdateFactoryConfig requires that the alias decodes (Decodable). So do ConfigUpdateHandler.FactoryPidAndPid, ConfigUpdateHandler.GetFactoryPidAndPid, ConfigUpdateHandler.Handler.UpdateGroup and ConfigUpdateHandler.Handler.Update. A group that does not decode would make the source's loop run past the end; callers only pass groups installed under the legacy naming scheme.
- Filters.Eval compares an attribute by its string form, which matches Java only for String-valued properties. Numeric, boolean and array comparisons are not modelled, array-valued properties are absent from the attributes, and attribute names are matched case-sensitively where the framework ignores case.
- Filters.Compare folds case for `~=` only for the ASCII letters, and orders `>=` and `<=` by code point rather than by UTF-16 code unit.

## Findings

| source | as written | input that shows it | evidently intended | confidence | as-written member | corrected member |
|---|---|---|---|---|---|---|
| src/main/java/org/apache/sling/installer/factories/configuration/impl/ConfigUtil.java:260-262 | the third legacy lookup puts the factory pid into the filter without encoding it | factory pid "a*" returns a record of factory "ab"; factory pid "a)(x=y" returns a record of factory "a" with x=y; factory pid "a(" or "a)" makes the filter unparsable, so the install task ends ignored | the factory pid encoded like every other filter value | not executed | ConfigUtil.AliasFilterAsWrittenMisreadsFactoryPid | ConfigUtil.FilterMeansCriterion |
| src/main/java/org/apache/sling/installer/factories/configuration/impl/ConfigurationSerializerWebConsolePlugin.java:372-374 | a key is removed when all relevant components declare it, and the merged-properties check sits inside the per-component test | a pid no component refers to: allMatch over no components holds, so every property is removed, including ones the merged properties set | remove only when at least one component is relevant and the merged properties do not set the key | not executed | ConfigurationSerializerWebConsolePlugin.AsWrittenDropsEverythingWithoutComponents | ConfigurationSerializerWebConsolePlugin.WithoutComponentDefaults |
| src/main/java/org/apache/sling/installer/factories/configuration/impl/ConfigurationSerializerWebConsolePlugin.java:123 | the merged defaults are looked up before the pid is checked, and the lookup concatenates the pid into an entity id | the first page load, which has no pid parameter, while merge schemes are configured: the concatenation of null throws and the request fails | look the merged defaults up only for a pid that is printed | not executed | ConfigurationSerializerWebConsolePlugin.WebConsolePlugin.RequestDefaultsFailWithoutPid | ConfigurationSerializerWebConsolePlugin.WebConsolePlugin.PrintedPidDefaults |
