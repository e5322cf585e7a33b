# Artifactory plugin for Hudson: a Dafny model of the deployment core

This project models the core of the Artifactory plugin for Hudson/Jenkins.
Its centre is the generic deployment of workspace files.

`GenericArtifactsDeployer` runs these steps:
- It normalises the deploy pattern: macros are expanded, then CRLF and every comma become LF.
- It stops when the pattern yields no pairs.
- It builds the property map that every descriptor carries.
- It gathers the files each pattern matches into one target-path to file multimap.
- It turns every match into a deploy descriptor.
- It uploads the descriptors one by one. The first failure aborts the rest, and the client is shut down either way.
- It returns the descriptors as the build's artifact list.

Around the pipeline sit the plugin's small decision rules:
- `ArtifactoryServer` normalises the URL and timeout, chooses credentials and decides when a proxy applies. It also fixes the shape of the repository lists it fetches.
- `CredentialResolver` decides whether a job's or the server's credentials win.
- `PublisherContext` strips quotes and checks the two required references in its builder.
- `ActionableHelper` provides last-element, first-match and filter searches over Jenkins' actions and components.
- `GradleReleaseWrapper` drives the SCM coordinator through the release set-up and tear-down. It also builds the version map and splits key lists.
- `BuildInfoResultAction` builds the badge link and falls back to legacy fields.

Java `null` strings are `Option<string>` (`JString`). The commons-lang string
functions the code calls are modelled in `JavaStrings`:
- `split` drops empty tokens, and a lemma proves that a join splits back.
- `replace` makes one left-to-right pass.
- `trimToEmpty` trims characters at or below U+0020.
- `isBlank` uses Java's whitespace test.

Code the plugin calls but does not own is a function-typed field of a parameter datatype. That covers pattern parsing and matching, target paths, checksums, macro expansion, name sanitising, URL encoding, file extensions and descrambling.

The HTTP client is a class whose server side is a `Remote` value. That value fixes what each request returns and which descriptors the server rejects.

`HashSet` and `HashMultimap` iteration is an arbitrary enumeration of the set. The same order is used for the upload and for the manifest, as the code iterates the same set twice.

Log output is a sequence of events without message text.

Some promises of the code are narrower than its description, and the model follows the code:
- `stringToArray` trims only characters at or below U+0020, so a string of ideographic spaces is blank but yields one key (`StringToArrayKeepsUnicodeSpace`).
- A missing checksum algorithm leaves both digests null, because both are computed in one call.
- The `"//"` replacement is a single pass, so `"///"` becomes `"//"`.

## Model

| member | source | states |
|---|---|---|
| GenericDeploy.NormalizeDeployPattern | src/main/java/org/jfrog/hudson/generic/GenericArtifactsDeployer.java:71-73 | null stays null and no comma is left in the result; what happens to commas and to CRLF is stated by the lemmas after it |
| GenericDeploy.NormalizeTurnsCommasIntoLines | src/main/java/org/jfrog/hudson/generic/GenericArtifactsDeployer.java:71-73 | when the expansion holds no CRLF, the result has its length and, position by position, LF where it has a comma and its own character everywhere else |
| GenericDeploy.NormalizeJoinsCrlfLines | src/main/java/org/jfrog/hudson/generic/GenericArtifactsDeployer.java:71-73 | comma-free lines without carriage returns joined by CRLF come out joined by LF |
| GenericDeploy.NormalizeKeepsPlainPattern | src/main/java/org/jfrog/hudson/generic/GenericArtifactsDeployer.java:71-73 | a pattern whose expansion holds no CRLF and no comma reaches the pair parser exactly as expanded |
| GenericDeploy.BuiltInProperties | src/main/java/org/jfrog/hudson/generic/GenericArtifactsDeployer.java:88-101 | build.name, build.number and build.timestamp always present with the sanitised name, number and start time; build.parentName and build.parentNumber present together exactly when an upstream cause exists; vcs.revision present exactly when the revision is not blank; no other key |
| GenericDeploy.MatrixTokens | src/main/java/org/jfrog/hudson/generic/GenericArtifactsDeployer.java:109-112 | null matrix parameters give no token; every token is non-empty and holds neither ';' nor ' ' |
| GenericDeploy.ParseMatrixParam | src/main/java/org/jfrog/hudson/generic/GenericArtifactsDeployer.java:114-117 | a token is accepted exactly when it splits on '=' into two parts; the key is non-empty and free of '='; the value is macro-expanded |
| GenericDeploy.ParseMatrixParamOfPair | src/main/java/org/jfrog/hudson/generic/GenericArtifactsDeployer.java:114-117 | key=value with non-empty parts and no further '=' is accepted as that key and the expanded value |
| GenericDeploy.MatrixEntries | src/main/java/org/jfrog/hudson/generic/GenericArtifactsDeployer.java:113-119 | at most one entry per token, each the parse of some token |
| GenericDeploy.PutPairs | src/main/java/org/jfrog/hudson/generic/GenericArtifactsDeployer.java:113-119 | the keys afterwards are the old keys and the entries' keys; a key no entry names keeps its value |
| GenericDeploy.PutPairsLastWins | src/main/java/org/jfrog/hudson/generic/GenericArtifactsDeployer.java:113-119 | a key ends up with the value of its last entry |
| GenericDeploy.BuildPropertiesMap | src/main/java/org/jfrog/hudson/generic/GenericArtifactsDeployer.java:87-106 | a key is present exactly when it is a built-in key or named by a matrix entry; a built-in key no matrix entry names keeps its built-in value |
| GenericDeploy.BuildPropertiesPrecedence | src/main/java/org/jfrog/hudson/generic/GenericArtifactsDeployer.java:87-120 | matrix entries are put after the built-in keys, so a colliding matrix key overwrites the built-in value and the last matrix entry for a key wins |
| GenericDeploy.NormalizeArtifactPath | src/main/java/org/jfrog/hudson/generic/GenericArtifactsDeployer.java:210-211 | replacing "//" never lengthens the path |
| GenericDeploy.NormalizeArtifactPathSingleSlashes | src/main/java/org/jfrog/hudson/generic/GenericArtifactsDeployer.java:210-211 | a path without "///" comes out with no "//" and keeps whether it starts with '/' |
| GenericDeploy.NormalizeArtifactPathTripleSlash | src/main/java/org/jfrog/hudson/generic/GenericArtifactsDeployer.java:210-211 | the replacement is one pass: "a///b" becomes "a//b" |
| GenericDeploy.DeploymentPath | src/main/java/org/jfrog/hudson/generic/GenericArtifactsDeployer.java:175-180 | url, "/", the repository key, then the artifact path, with a "/" inserted only when the path does not start with one |
| GenericDeploy.Enumerate | src/main/java/org/jfrog/hudson/generic/GenericArtifactsDeployer.java:147-148 | an iteration order of a hash container: every element exactly once |
| GenericDeploy.GatheredMembers | src/main/java/org/jfrog/hudson/generic/GenericArtifactsDeployer.java:188-200 | an entry is gathered exactly when some pattern taken has non-null publishing data holding it |
| GenericDeploy.GatheredAll | src/main/java/org/jfrog/hudson/generic/GenericArtifactsDeployer.java:186-203 | taking every pattern pair in any order gives the union of all non-null publishing data; duplicates collapse |
| GenericDeploy.PatternLog | src/main/java/org/jfrog/hudson/generic/GenericArtifactsDeployer.java:193-198 | one log line per pattern taken, in order |
| GenericDeploy.GatherStep | src/main/java/org/jfrog/hudson/generic/GenericArtifactsDeployer.java:188-200 | taking one more pattern adds exactly its non-null publishing data to the gathered set and its one line to the log |
| GenericDeploy.PatternEvent | src/main/java/org/jfrog/hudson/generic/GenericArtifactsDeployer.java:193-198 | a pattern with data logs how many entries it matched; one without logs that it matched nothing |
| GenericDeploy.DeployDetailsFor | src/main/java/org/jfrog/hudson/generic/GenericArtifactsDeployer.java:208-226 | the descriptor carries the entry's file, the normalised target path, the shared repository key and the whole property map; both digests when checksums are available, neither when an algorithm is missing |
| GenericDeploy.DescriptorsOf | src/main/java/org/jfrog/hudson/generic/GenericArtifactsDeployer.java:147-149 | every entry's descriptor is in the set and every descriptor in it comes from an entry |
| GenericDeploy.DescriptorsOfStep | src/main/java/org/jfrog/hudson/generic/GenericArtifactsDeployer.java:147-149 | describing one more entry adds exactly that entry's descriptor |
| GenericDeploy.DescriptorsOfAll | src/main/java/org/jfrog/hudson/generic/GenericArtifactsDeployer.java:145-149 | describing the whole multimap, in any order, gives the one descriptor set |
| GenericDeploy.Uploaded | src/main/java/org/jfrog/hudson/generic/GenericArtifactsDeployer.java:174-183 | the uploads that succeed are exactly the descriptors before the first rejected one |
| GenericDeploy.DeployLog | src/main/java/org/jfrog/hudson/generic/GenericArtifactsDeployer.java:175-181 | one "deploying" line per attempted descriptor, naming its deployment path |
| GenericDeploy.ManifestEntryOfMatch | src/main/java/org/jfrog/hudson/generic/GenericArtifactsDeployer.java:164-166 | the artifact built for a matched file carries the file's name, its extension as type, and the md5 and sha1 of its checksums (both null without checksums) |
| GenericDeploy.Manifest | src/main/java/org/jfrog/hudson/generic/GenericArtifactsDeployer.java:161-170 | one artifact per descriptor, in order, with the file's name, its extension as type and the descriptor's md5 and sha1 |
| GenericDeploy.FilesDeployerCallable.constructor | src/main/java/org/jfrog/hudson/generic/GenericArtifactsDeployer.java:132-142 | every argument stored in its field |
| GenericDeploy.FilesDeployerCallable.BuildTargetPathToFiles | src/main/java/org/jfrog/hudson/generic/GenericArtifactsDeployer.java:186-203 | the result is the union of every pattern's non-null publishing data; a pattern without data only logs; one log line per pattern, in the enumeration order |
| GenericDeploy.FilesDeployerCallable.GatherAll | src/main/java/org/jfrog/hudson/generic/GenericArtifactsDeployer.java:188-200 | the loop over the patterns in the order taken gathers exactly their non-null publishing data and logs one line per pattern in that order |
| GenericDeploy.FilesDeployerCallable.GatherPattern | src/main/java/org/jfrog/hudson/generic/GenericArtifactsDeployer.java:189-199 | one pattern contributes its publishing data, or nothing when that is null, and logs exactly one line saying which |
| GenericDeploy.FilesDeployerCallable.BuildDeployDetailsFromFileEntry | src/main/java/org/jfrog/hudson/generic/GenericArtifactsDeployer.java:205-229 | a one-element set holding the entry's descriptor; a missing checksum algorithm adds one log line and nothing else |
| GenericDeploy.ChecksumLogLines | src/main/java/org/jfrog/hudson/generic/GenericArtifactsDeployer.java:205-229 | every line of describing the matches reports a missing checksum algorithm, and there is none exactly when every match has its checksums |
| GenericDeploy.FilesDeployerCallable.DescribeAll | src/main/java/org/jfrog/hudson/generic/GenericArtifactsDeployer.java:145-149 | the loop over the entries is proved equal to the descriptors of those entries, with the checksum lines of each entry in turn |
| GenericDeploy.FilesDeployerCallable.BuildDescriptors | src/main/java/org/jfrog/hudson/generic/GenericArtifactsDeployer.java:145-149 | the descriptor set is the descriptors of the whole multimap; the log gains one line per pattern in the gathering order, then the checksum lines in the entry order |
| GenericDeploy.FilesDeployerCallable.DeployAll | src/main/java/org/jfrog/hudson/generic/GenericArtifactsDeployer.java:172-184 | the client receives exactly the descriptors before the first rejected one; success exactly when none is rejected; a log line precedes each attempt, the failing one included |
| GenericDeploy.FilesDeployerCallable.ConvertDeployDetailsToArtifacts | src/main/java/org/jfrog/hudson/generic/GenericArtifactsDeployer.java:161-170 | the result is the manifest of the descriptors in the order given |
| GenericDeploy.FilesDeployerCallable.Invoke | src/main/java/org/jfrog/hudson/generic/GenericArtifactsDeployer.java:144-159 | a fresh client with the credentials and the applicable proxy is shut down on every path; the upload order enumerates the descriptor set; success exactly when no descriptor is rejected, and then the manifest of that order; failure is an I/O error; the log gains the pattern lines, the checksum lines and one deploying line per attempted upload, in that order |
| GenericDeploy.GenericArtifactsDeployer.constructor | src/main/java/org/jfrog/hudson/generic/GenericArtifactsDeployer.java:54-62 | arguments stored; no artifacts deployed yet |
| GenericDeploy.GenericArtifactsDeployer.AddMatrixParams | src/main/java/org/jfrog/hudson/generic/GenericArtifactsDeployer.java:108-120 | the map with every accepted matrix entry put in order |
| GenericDeploy.MatrixEntriesStep | src/main/java/org/jfrog/hudson/generic/GenericArtifactsDeployer.java:113-119 | one more matrix token puts its key and expanded value over the map when it splits into exactly two parts, and leaves the map alone otherwise |
| GenericDeploy.GenericArtifactsDeployer.GetBuildPropertiesMap | src/main/java/org/jfrog/hudson/generic/GenericArtifactsDeployer.java:87-106 | the built-in properties with the upstream cause getUpstreamCause finds, then the matrix entries |
| GenericDeploy.GenericArtifactsDeployer.Deploy | src/main/java/org/jfrog/hudson/generic/GenericArtifactsDeployer.java:68-85 | no pairs: no error, no log and the deployed list unchanged; otherwise success exactly when no descriptor is rejected, replacing the deployed list with the manifest; an I/O error leaves it unchanged; the log is the pattern lines, the checksum lines and one deploying line per attempted upload |
| Server.NormalizeUrl | src/main/java/org/jfrog/hudson/ArtifactoryServer.java:75 | null stays null; one trailing "/" removed, any other URL unchanged |
| Server.NormalizeUrlRemovesOneSlash | src/main/java/org/jfrog/hudson/ArtifactoryServer.java:75 | a URL ending in "//" keeps one slash |
| Server.NormalizeTimeout | src/main/java/org/jfrog/hudson/ArtifactoryServer.java:78 | a positive timeout is kept, anything else becomes 300; the result is positive |
| Server.ProxyToApply | src/main/java/org/jfrog/hudson/ArtifactoryServer.java:235-241 | a proxy is applied exactly when not bypassed and configured with a host and a non-zero port, with all four settings copied |
| Server.CreateProxyConfiguration | src/main/java/org/jfrog/hudson/ArtifactoryServer.java:246-257 | null for no Jenkins proxy; otherwise host, port, user name and password copied |
| Server.VirtualRepositoriesOf | src/main/java/org/jfrog/hudson/ArtifactoryServer.java:176-195 | the prompt with value "" at index 0, then one (key, key) entry per key in order |
| Server.ArtifactoryServer.constructor | src/main/java/org/jfrog/hudson/ArtifactoryServer.java:73-80 | the URL and timeout normalised, the credentials and bypass flag stored, no cached lists |
| Server.ArtifactoryServer.Deserialized | src/main/java/org/jfrog/hudson/ArtifactoryServer.java:56-70 | a server read back from a saved configuration holds the saved fields, legacy resolver fields included |
| Server.ArtifactoryServer.GetResolvingCredentials | src/main/java/org/jfrog/hudson/ArtifactoryServer.java:300-310 | the resolver credentials, else the deployer credentials, else (null, null); never null |
| Server.ArtifactoryServer.NewClient | src/main/java/org/jfrog/hudson/ArtifactoryServer.java:231-244 | the timeout is always set on the new client; the proxy exactly as ProxyToApply says |
| Server.ArtifactoryServer.CreateArtifactoryClient | src/main/java/org/jfrog/hudson/ArtifactoryServer.java:231-244 | a fresh build-info client for the server URL with the given credentials, the timeout and the applicable proxy |
| Server.ArtifactoryServer.CreateArtifactoryDependenciesClient | src/main/java/org/jfrog/hudson/ArtifactoryServer.java:263-275 | a fresh dependencies client with the same timeout and proxy rule |
| Server.ArtifactoryServer.GetRepositoryKeys | src/main/java/org/jfrog/hudson/ArtifactoryServer.java:106-127 | the fetched keys, cached; an empty list on either error with the cache unchanged; the client uses the resolving credentials and is shut down on every path |
| Server.ArtifactoryServer.GetVirtualRepositoryKeys | src/main/java/org/jfrog/hudson/ArtifactoryServer.java:170-196 | on success the prompt then one entry per key, cached; an I/O error gives an empty list without the prompt; an illegal-argument error propagates; the client is shut down on every path |
| Server.ArtifactoryServer.ConvertLegacyCredentials | src/main/java/org/jfrog/hudson/ArtifactoryServer.java:288-292 | a non-blank legacy user name becomes the resolver credentials, with the descrambled password, only when none are set; otherwise nothing changes |
| CredentialResolution.GetPreferredDeployer | src/main/java/org/jfrog/hudson/util/CredentialResolver.java:40-53 | the job's credentials when it overrides, without consulting the server; else the server's deployer credentials when present; else (null, null), also without a server |
| CredentialResolution.GetPreferredResolver | src/main/java/org/jfrog/hudson/util/CredentialResolver.java:63-69 | the job's resolver credentials when it overrides; else the server's resolving credentials: resolver, else deployer, else (null, null) |
| CredentialResolution.ResolverFallsBackToDeployer | src/main/java/org/jfrog/hudson/util/CredentialResolver.java:40-69 | without overrides and without resolver credentials on the server, a job resolves with the credentials it deploys with |
| Publishing.CleanString | src/main/java/org/jfrog/hudson/util/PublisherContext.java:143-145 | null stays null; at most one leading and then at most one trailing '"' removed, nothing else changed |
| Publishing.CleanStringStripsQuotes | src/main/java/org/jfrog/hudson/util/PublisherContext.java:143-145 | the cleaned string is the raw one less at most its first and its last character, each dropped only when it is '"' |
| Publishing.QuotesStrippedUnique | src/main/java/org/jfrog/hudson/util/PublisherContext.java:143-145 | the quote-stripping relation has exactly one solution for each raw string, the one cleanString returns |
| Publishing.CleanStringUnquotes | src/main/java/org/jfrog/hudson/util/PublisherContext.java:143-145 | a value in one pair of quotes comes back unwrapped, inner quotes kept |
| Publishing.CleanStringKeepsUnquoted | src/main/java/org/jfrog/hudson/util/PublisherContext.java:143-145 | a value neither starting nor ending with '"' is unchanged |
| Publishing.CleanStringRemovesOneQuotePerEnd | src/main/java/org/jfrog/hudson/util/PublisherContext.java:143-145 | doubled quotes lose one per end |
| Publishing.PublisherContext.constructor | src/main/java/org/jfrog/hudson/util/PublisherContext.java:31-57 | every field holds its declared default (IsDefault: references null, flags false, both patterns ""), so both getters return "" |
| Publishing.PublisherContext.GetArtifactsPattern | src/main/java/org/jfrog/hudson/util/PublisherContext.java:63-65 | equal to cleanString of the stored pattern: null exactly for a null pattern, otherwise the pattern with its surrounding quotes stripped |
| Publishing.PublisherContext.GetIvyPattern | src/main/java/org/jfrog/hudson/util/PublisherContext.java:71-73 | equal to cleanString of the stored pattern: null exactly for a null pattern, otherwise the pattern with its surrounding quotes stripped |
| Publishing.PublisherContext.GetArtifactoryName | src/main/java/org/jfrog/hudson/util/PublisherContext.java:127-129 | null without server details, otherwise their Artifactory name |
| Publishing.Builder.constructor | src/main/java/org/jfrog/hudson/util/PublisherContext.java:163-164 | the builder owns one fresh context holding every field default (IsDefault) |
| Publishing.Builder.Build | src/main/java/org/jfrog/hudson/util/PublisherContext.java:166-174 | fails "artifactoryServer cannot be null" first, then "serverDetails cannot be null"; succeeds exactly when both are set, returning the builder's own context every time |
| Publishing.Builder.SetArtifactoryServer | src/main/java/org/jfrog/hudson/util/PublisherContext.java:176-179 | sets artifactoryServer on the context and nothing else; returns the same builder |
| Publishing.Builder.SetServerDetails | src/main/java/org/jfrog/hudson/util/PublisherContext.java:181-184 | sets serverDetails on the context and nothing else; returns the same builder |
| Publishing.Builder.SetDeployerOverrider | src/main/java/org/jfrog/hudson/util/PublisherContext.java:186-189 | sets deployerOverrider on the context and nothing else; returns the same builder |
| Publishing.Builder.SetRunChecks | src/main/java/org/jfrog/hudson/util/PublisherContext.java:191-194 | sets runChecks on the context and nothing else; returns the same builder |
| Publishing.Builder.SetIncludePublishArtifacts | src/main/java/org/jfrog/hudson/util/PublisherContext.java:196-199 | sets includePublishArtifacts on the context and nothing else; returns the same builder |
| Publishing.Builder.SetViolationRecipients | src/main/java/org/jfrog/hudson/util/PublisherContext.java:201-204 | sets violationRecipients on the context and nothing else; returns the same builder |
| Publishing.Builder.SetScopes | src/main/java/org/jfrog/hudson/util/PublisherContext.java:206-209 | sets scopes on the context and nothing else; returns the same builder |
| Publishing.Builder.SetLicenseAutoDiscovery | src/main/java/org/jfrog/hudson/util/PublisherContext.java:211-214 | sets licenseAutoDiscovery on the context and nothing else; returns the same builder |
| Publishing.Builder.SetDiscardOldBuilds | src/main/java/org/jfrog/hudson/util/PublisherContext.java:216-219 | sets discardOldBuilds on the context and nothing else; returns the same builder |
| Publishing.Builder.SetDeployArtifacts | src/main/java/org/jfrog/hudson/util/PublisherContext.java:221-224 | sets deployArtifacts on the context and nothing else; returns the same builder |
| Publishing.Builder.SetIncludesExcludes | src/main/java/org/jfrog/hudson/util/PublisherContext.java:226-229 | sets includesExcludes on the context and nothing else; returns the same builder |
| Publishing.Builder.SetSkipBuildInfoDeploy | src/main/java/org/jfrog/hudson/util/PublisherContext.java:231-234 | sets skipBuildInfoDeploy on the context and nothing else; returns the same builder |
| Publishing.Builder.SetIncludeEnvVars | src/main/java/org/jfrog/hudson/util/PublisherContext.java:236-239 | sets includeEnvVars on the context and nothing else; returns the same builder |
| Publishing.Builder.SetDiscardBuildArtifacts | src/main/java/org/jfrog/hudson/util/PublisherContext.java:241-244 | sets discardBuildArtifacts on the context and nothing else; returns the same builder |
| Publishing.Builder.SetMatrixParams | src/main/java/org/jfrog/hudson/util/PublisherContext.java:246-249 | sets matrixParams on the context and nothing else; returns the same builder |
| Publishing.Builder.SetArtifactsPattern | src/main/java/org/jfrog/hudson/util/PublisherContext.java:251-254 | sets artifactsPattern on the context and nothing else; returns the same builder |
| Publishing.Builder.SetIvyPattern | src/main/java/org/jfrog/hudson/util/PublisherContext.java:256-259 | sets ivyPattern on the context and nothing else; returns the same builder |
| Publishing.Builder.SetDeployMaven | src/main/java/org/jfrog/hudson/util/PublisherContext.java:261-264 | sets deployMaven on the context and nothing else; returns the same builder |
| Publishing.Builder.SetDeployIvy | src/main/java/org/jfrog/hudson/util/PublisherContext.java:266-269 | sets deployIvy on the context and nothing else; returns the same builder |
| Publishing.Builder.SetEvenIfUnstable | src/main/java/org/jfrog/hudson/util/PublisherContext.java:271-274 | sets evenIfUnstable on the context and nothing else; returns the same builder |
| Publishing.Builder.SetMaven2Compatible | src/main/java/org/jfrog/hudson/util/PublisherContext.java:276-279 | sets maven2Compatible on the context and nothing else; returns the same builder |
| Publishing.Builder.SetEnableIssueTrackerIntegration | src/main/java/org/jfrog/hudson/util/PublisherContext.java:281-284 | sets enableIssueTrackerIntegration on the context and nothing else; returns the same builder |
| Publishing.Builder.SetAggregateBuildIssues | src/main/java/org/jfrog/hudson/util/PublisherContext.java:286-289 | sets aggregateBuildIssues on the context and nothing else; returns the same builder |
| Publishing.Builder.SetAggregationBuildStatus | src/main/java/org/jfrog/hudson/util/PublisherContext.java:291-294 | sets aggregationBuildStatus on the context and nothing else; returns the same builder |
| Actionable.GetLatestAction | src/main/java/org/jfrog/hudson/action/ActionableHelper.java:60-67 | null for a null or empty list, otherwise the last element |
| Actionable.FirstWhere | src/main/java/org/jfrog/hudson/action/ActionableHelper.java:73-95 | none exactly when no element matches; otherwise the element at the first matching index |
| Actionable.FindFirst | src/main/java/org/jfrog/hudson/action/ActionableHelper.java:73-95 | the search loop returns the first match or nothing |
| Actionable.GetPublisher | src/main/java/org/jfrog/hudson/action/ActionableHelper.java:73-81 | the first publisher of the type, null exactly when there is none |
| Actionable.GetBuildWrapper | src/main/java/org/jfrog/hudson/action/ActionableHelper.java:86-95 | the first build wrapper of the type, null exactly when there is none |
| Actionable.Filter | src/main/java/org/jfrog/hudson/action/ActionableHelper.java:105-114 | no longer than the input, every element kept satisfies the test |
| Actionable.FilterMembers | src/main/java/org/jfrog/hudson/action/ActionableHelper.java:105-114 | an element is kept exactly when it is in the input and satisfies the test |
| Actionable.GetBuilder | src/main/java/org/jfrog/hudson/action/ActionableHelper.java:105-114 | exactly the builders of the type, in their original order |
| Actionable.UpstreamCauseOf | src/main/java/org/jfrog/hudson/action/ActionableHelper.java:116-126 | null without a cause action; otherwise the first upstream cause of the latest cause action (null when it holds none): every earlier cause is not an upstream cause |
| Actionable.GetUpstreamCause | src/main/java/org/jfrog/hudson/action/ActionableHelper.java:116-126 | the search loop over the latest cause action finds the first upstream cause |
| Actionable.GetUserCausePrincipal | src/main/java/org/jfrog/hudson/action/ActionableHelper.java:141-148 | the current user's id when both user and id exist, otherwise the default |
| Actionable.GetUserCausePrincipalOrAnonymous | src/main/java/org/jfrog/hudson/action/ActionableHelper.java:132-134 | the one-argument form defaults to "anonymous" |
| Actionable.GetBuildUrl | src/main/java/org/jfrog/hudson/action/ActionableHelper.java:162-168 | "" for a blank root URL, otherwise the root followed by the build's URL |
| Actionable.GetArtifactoryProjectAction | src/main/java/org/jfrog/hudson/action/ActionableHelper.java:177-187 | at most one action; one exactly when there is a root URL and the project has none yet, for that root and the project's name |
| GradleRelease.StringToArray | src/main/java/org/jfrog/hudson/release/gradle/GradleReleaseWrapper.java:122-125 | every key is non-empty and holds neither ',' nor ' '; a setting that trims to empty gives no keys |
| GradleRelease.StringToArrayOfBlank | src/main/java/org/jfrog/hudson/release/gradle/GradleReleaseWrapper.java:122-125 | null and strings of characters at or below U+0020 give no keys |
| GradleRelease.StringToArrayKeepsUnicodeSpace | src/main/java/org/jfrog/hudson/release/gradle/GradleReleaseWrapper.java:122-125 | an ideographic space is blank yet survives trimming as one key |
| GradleRelease.StringToArrayJoin | src/main/java/org/jfrog/hudson/release/gradle/GradleReleaseWrapper.java:122-125 | keys joined with commas split back into the same keys |
| GradleRelease.PutAll | src/main/java/org/jfrog/hudson/release/gradle/GradleReleaseWrapper.java:174-185 | every key maps to its value; other keys keep theirs |
| GradleRelease.PutEach | src/main/java/org/jfrog/hudson/release/gradle/GradleReleaseWrapper.java:174-185 | the put loop computes PutAll |
| GradleRelease.VersionMap | src/main/java/org/jfrog/hudson/release/gradle/GradleReleaseWrapper.java:172-185 | keys are the release and next-integration keys; for the release every key takes its release version; otherwise next-integration keys take the next version and the remaining release keys their current version; a key in both lists takes its next-integration value |
| GradleRelease.ChangePropertiesPlan | src/main/java/org/jfrog/hudson/release/gradle/GradleReleaseWrapper.java:168-193 | one edit call on the properties file; it completes exactly when the edit and the rewrite both succeed, answering whether the file changed |
| GradleRelease.SetUpPlan | src/main/java/org/jfrog/hudson/release/gradle/GradleReleaseWrapper.java:135-143 | prepare comes first; with no versioning it is the only call; otherwise prepare, before-release, the edit and after-release(modified) in that order; a failed step is the last call |
| GradleRelease.VersionChangePlan | src/main/java/org/jfrog/hudson/release/gradle/GradleReleaseWrapper.java:138-162 | the before call comes first; a completed change is exactly before, the edit of the properties file, and the after call with whether the file changed, none of them failing; an incomplete one stops at the failing call or the failed edit |
| GradleRelease.TearDownPlan | src/main/java/org/jfrog/hudson/release/gradle/GradleReleaseWrapper.java:153-165 | after-successful-build comes first; without a release action the step fails; with no versioning it is the only call; otherwise before-development, the edit and after-development(modified) follow in order |
| GradleRelease.RunUntilFailure | src/main/java/org/jfrog/hudson/release/gradle/GradleReleaseWrapper.java:135-165 | reference semantics of a block of SCM calls where the first exception ends the block: complete exactly when no call fails, then every call made; otherwise the calls up to and including the first failing one |
| GradleRelease.VersionChangeRunsUntilFailure | src/main/java/org/jfrog/hudson/release/gradle/GradleReleaseWrapper.java:138-162 | the version-change plan is the run-until-failure of before, edit, after(modified); a failed edit ends it after before and the edit |
| GradleRelease.SetUpRunsUntilFailure | src/main/java/org/jfrog/hudson/release/gradle/GradleReleaseWrapper.java:135-143 | the set-up plan is the run-until-failure of prepare, then (with versioning) before-release, the edit and after-release(modified) |
| GradleRelease.SetUpSucceedsExactly | src/main/java/org/jfrog/hudson/release/gradle/GradleReleaseWrapper.java:135-143 | set-up completes if and only if prepare succeeds and, with versioning, the edit yields a result and before, edit and after all succeed |
| GradleRelease.TearDownRunsUntilFailure | src/main/java/org/jfrog/hudson/release/gradle/GradleReleaseWrapper.java:153-165 | the tear-down plan is the run-until-failure of after-successful-build, then (with versioning) before-development, the edit and after-development(modified) |
| GradleRelease.TearDownSucceedsExactly | src/main/java/org/jfrog/hudson/release/gradle/GradleReleaseWrapper.java:146-165 | tear-down completes if and only if there is a release action, after-successful-build succeeds and, with versioning, the edit yields a result and the three calls succeed |
| GradleRelease.GradleReleaseWrapper.constructor | src/main/java/org/jfrog/hudson/release/gradle/GradleReleaseWrapper.java:53-61 | every argument stored in its field; no coordinator |
| GradleRelease.GradleReleaseWrapper.SetTagPrefix | src/main/java/org/jfrog/hudson/release/gradle/GradleReleaseWrapper.java:73-75 | stores the argument in its field and nothing else |
| GradleRelease.GradleReleaseWrapper.SetReleasePropsKeys | src/main/java/org/jfrog/hudson/release/gradle/GradleReleaseWrapper.java:82-84 | stores the argument in its field and nothing else |
| GradleRelease.GradleReleaseWrapper.SetNextIntegPropsKeys | src/main/java/org/jfrog/hudson/release/gradle/GradleReleaseWrapper.java:91-93 | stores the argument in its field and nothing else |
| GradleRelease.GradleReleaseWrapper.SetReleaseBranchPrefix | src/main/java/org/jfrog/hudson/release/gradle/GradleReleaseWrapper.java:100-102 | stores the argument in its field and nothing else |
| GradleRelease.GradleReleaseWrapper.SetAlternativeTasks | src/main/java/org/jfrog/hudson/release/gradle/GradleReleaseWrapper.java:110-112 | stores the argument in its field and nothing else |
| GradleRelease.GradleReleaseWrapper.GetReleasePropsKeysList | src/main/java/org/jfrog/hudson/release/gradle/GradleReleaseWrapper.java:114-116 | `stringToArray` of the release-property setting, so the split and join round trip of StringToArray applies; valid keys, none when it trims to empty |
| GradleRelease.GradleReleaseWrapper.GetNextIntegPropsKeysList | src/main/java/org/jfrog/hudson/release/gradle/GradleReleaseWrapper.java:118-120 | `stringToArray` of the next-integration setting, so the split and join round trip of StringToArray applies; valid keys, none when it trims to empty |
| GradleRelease.GradleReleaseWrapper.BuildVersionMap | src/main/java/org/jfrog/hudson/release/gradle/GradleReleaseWrapper.java:172-185 | the two put loops build the version map |
| GradleRelease.GradleReleaseWrapper.ChangeProperties | src/main/java/org/jfrog/hudson/release/gradle/GradleReleaseWrapper.java:168-193 | the coordinator records the plan's edit; the result is whether the file changed, or an exception |
| GradleRelease.GradleReleaseWrapper.SetUp | src/main/java/org/jfrog/hudson/release/gradle/GradleReleaseWrapper.java:127-144 | no release action: nothing happens and no coordinator is kept; otherwise the coordinator is kept and records exactly the set-up plan, success when it completes |
| GradleRelease.GradleReleaseWrapper.TearDown | src/main/java/org/jfrog/hudson/release/gradle/GradleReleaseWrapper.java:146-166 | true with no SCM call for a missing or worse-than-SUCCESS result; otherwise the coordinator records exactly the tear-down plan and the result is whether it completed |
| GradleRelease.GradleReleaseWrapper.PostBuildSteps | src/main/java/org/jfrog/hudson/release/gradle/GradleReleaseWrapper.java:153-165 | the try block records exactly the tear-down plan; false on the first exception |
| GradleRelease.GradleReleaseWrapper.VersionChange | src/main/java/org/jfrog/hudson/release/gradle/GradleReleaseWrapper.java:138-162 | the kept coordinator records exactly the version-change plan, and the result says whether it completed |
| BuildInfoResult.GenerateUrl | src/main/java/org/jfrog/hudson/BuildInfoResultAction.java:65-69 | starts with the root and "/webapp/builds/" and ends with "/" and the build number |
| BuildInfoResult.LastSlash | src/main/java/org/jfrog/hudson/BuildInfoResultAction.java:65-69 | the position of the last '/', or none when there is none |
| BuildInfoResult.ParseGenerateUrl | src/main/java/org/jfrog/hudson/BuildInfoResultAction.java:65-69 | a generated link reads back as the encoded sanitised job name and the build number |
| BuildInfoResult.ParseOfLink | src/main/java/org/jfrog/hudson/BuildInfoResultAction.java:65-69 | a link of root, builds page, name and a slash-free segment reads back as that name and segment |
| BuildInfoResult.NewBuildInfoResultAction | src/main/java/org/jfrog/hudson/BuildInfoResultAction.java:44-46 | the link is generated once at construction and reads back as job name and number; the legacy fields are empty |
| BuildInfoResult.GetUrlName | src/main/java/org/jfrog/hudson/BuildInfoResultAction.java:56-63 | the stored link whenever there is one; without it, a link recomputed from the legacy publisher's Artifactory name and the legacy build when both exist; otherwise null |

## Left out

- `PublishedItemsHelper`, `FileChecksumCalculator`, `Util.replaceMacro`, `Util.rawEncode`, `ExtractorUtils`, `FilenameUtils` and `Scrambler` are foreign code. They are uninterpreted function fields; glob semantics and digests are not modelled.
- The HTTP protocol is not modelled. Each client request answers from the `Remote` value: a result, or an I/O or illegal-argument error.
- `FilePath.act` and remote channels: the callable is invoked directly.
- Jenkins globals are parameters: `Hudson.getInstance().proxy` is `hudsonProxy`, and the current user is passed to `GetUserCausePrincipal`.
- `getReleaseRepositoryKeysFirst`, `getSnapshotRepositoryKeysFirst` and `RepositoryComparator` are left out. The comparator is not a consistent ordering, so no order can be stated.
- `isArtifactoryPro`, `gatherUserPluginInfo`, the user-plugin lists and the staging strategy are left out. They only forward to the HTTP client.
- Trivial field getters (`getUrl`, `getName`, `getDeployedArtifacts`, the `PublisherContext` and `GradleReleaseWrapper` getters) are fields read directly.
- Failures while scanning the workspace or reading files are not modelled. Their `IOException`s are not modelled, nor are `InterruptedException`s. `createScmCoordinator` is not modelled as failing.
- `DeployDetails` equality is taken as structural: its class is not part of this model.
- GenericDeploy.DeployDetailsFor: the `IllegalArgumentException` of the foreign `DeployDetails.Builder.build()` is not modelled: a blank repository key, a blank artifact path or a missing file still yields a descriptor that is then uploaded. The repository key is taken as non-null, so a null `configurator.getRepositoryKey()` is not modelled either.
- The `build` argument of `getUserCausePrincipal` is never read, so it is not a parameter.
- `addMatrixParams` mutates the map it is given; the model returns the new map instead.
- `ServerDetails` holds only `artifactoryName`, the one field the context reads.
- `MavenVersionHelper` and the UI round-trip test are not part of this model.
- Log message text is not modelled; only the kind of each log line and the values it names.
- CredentialResolution.GetPreferredResolver: requires a server when the job does not override; the code throws `NullPointerException` there.
- GenericDeploy.GenericArtifactsDeployer.Deploy: requires a configured server when the pattern yields pairs, and a server URL when those pairs yield files to upload; otherwise the code throws `NullPointerException`.
- GenericDeploy.FilesDeployerCallable.Invoke: requires the server URL only when there are descriptors to upload; building a deployment path from a null URL throws, and with nothing to upload the URL is never used.
- GenericDeploy.FilesDeployerCallable.Invoke: the credentials are never null, so the `NullPointerException` that `invoke` throws when it reads the user name of null credentials (an overriding job without credentials) is not modelled.
- GenericDeploy.FilesDeployerCallable.DeployAll: requires the server URL only when the list to deploy is non-empty, for the same reason.
- GradleRelease.StringToArrayOfBlank: stated for characters at or below U+0020, not for every blank string, because trimming stops there.
- GenericDeploy.NormalizeArtifactPath: its own contract only bounds the length. What the replacement does to slashes is stated by the two lemmas after it.
