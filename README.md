# A verified model of the GitHub MCP server's core

The server speaks the Model Context Protocol over JSON-RPC 2.0. It answers
`initialize`, `tools/list` and `tools/call` requests, and its tools work
on four kinds of local state. This project models that core in Dafny and
proves what the code promises about it:

- **SSH keys** (`ssh/`).
  - Key records are generated or imported.
  - Private keys are encrypted at rest as `base64(nonce ‖ AES-GCM output)`.
  - A `KeyStore` keeps an index from id to record in step with one JSON file per key, rolling the index back when the write fails.
  - A sync uploads the local keys whose public-key text GitHub does not list, stopping at the first error.
- **Configuration** (`config/`).
  - `FileStore` is a cached key/value map, saved through a temporary file and a rename.
  - `Manager` gives the environment precedence over the local store, and the local store over the global one.
  - The alias manager validates names, expands `$n` placeholders and extracts parameters.
- **Tokens and authentication** (`storage/token.go`, `auth/tools.go`).
  - Tokens are stored one file per id, with timestamp rules.
  - Login, logout and status work on the personal access token "pat" and rely on the store's exact "not found" text.
- **Request dispatch** (`server/server.go`, `protocol/protocol.go`).
  - A two-state machine uses an `initialized` flag over a tool registry.
  - Errors map to the codes of section 5.1 of the JSON-RPC 2.0 Specification and to the MCP codes.
- **Organisations** (`internal/org/service.go`, `org/errors.go`).
  - Role and permission checks run before the service delegates to the remote APIs.
  - A filter selects a team's child teams.

There is one Dafny module per Go file, plus helper modules.

- **Helper modules.**
  - `Base`: results, options and bytes.
  - `GoStrings`: the `strings` and `filepath` calls.
  - `Base64`: a concrete section 4 of RFC 4648, with its round trip.
  - `Fs`: one directory whose every call may fail.
  - `Json`: an encoder/decoder pair. For a struct type (a key record, a token) the decoder reads back what the encoder wrote. For the configuration cache, decoded into a `map[string]interface{}`, only strings come back as they were (`ConfigStorage.ConfigRoundTrips`).
  - `Primitives`: the cryptographic library, as parameters with the laws the code relies on.
- **Classes.** Objects whose fields the code updates are classes: `KeyStore`, `FileStore`, `Manager`, `FileSystemStore`, `Server`, the GitHub `Remote` and the organisation APIs.
- **References.** A Go `*SSHKey` or `*Token` that the code overwrites in place is a `KeyRef` or `TokenRef` cell.
- **Inputs.** Randomness and the clock are method parameters.

Where the code and its tests disagree, the model follows the code:

- `KeyStore.Save` encrypts the caller's record in place. So a test that compares the caller's record after saving compares against ciphertext.
- `ExpandAlias` trims only the ends of the expanded command. So "git commit -m $1 -a $2" with no arguments gives "git commit -m  -a", with two inner spaces; `ConfigAlias.ExpandNoParameters` shows this. The test at config/alias_test.go:231-235 expects one space.
- Every `NewKeyEncryption` draws a fresh salt, and no salt is stored. So a store opened later derives its key from another salt and need not decrypt the records an earlier one wrote. When the two derived keys are told apart by GCM authentication, it cannot: `SshCrypto.StaleInstanceCannotDecrypt` proves the record then fails with the authentication error. The salt is a parameter of `SshCrypto.NewKeyEncryption`.

## Model

| member | source | states |
|---|---|---|
| SshKey.KeyId | ssh/key.go:195-200 | the id is "key_" followed by 32 lower-case hex digits that decode back to the 16 random bytes |
| SshKey.Generate | ssh/key.go:54-63 | an unknown key type gives "unsupported key type: <type>"; a failing random source fails; a generated record has the requested name and type, the id made from the random bytes, the current time as Added and no LastUsed |
| SshKey.GenerateEd25519 | ssh/key.go:66-99 | a failing random source gives "failed to generate ED25519 key: ..."; a public key that does not convert gives "failed to convert ED25519 public key: ..."; a PKCS#8 failure gives "failed to marshal ED25519 private key: ..."; a generated record has type ed25519, the PEM block "OPENSSH PRIVATE KEY" of the PKCS#8 key as private key, and the authorized-key text and fingerprint of the converted public key |
| SshKey.GenerateRsa | ssh/key.go:102-136 | a failing random source gives "failed to generate RSA key: ..."; a public key that does not convert gives "failed to convert RSA public key: ..."; a generated record has type rsa, the PEM block "RSA PRIVATE KEY" of the PKCS#1 form of the 4096-bit key as private key, and the authorized-key text and fingerprint of the converted public key |
| SshKey.Classify | ssh/key.go:149-177 | the type switch of `Import`: every error case with its text, and a success exactly for a parsed Ed25519 PKCS#8 body or a parsed PKCS#1 body whose public key converts, giving the type and that public key |
| SshKey.GenerateSucceeds | ssh/key.go:66-136 | with a working library, both key types generate, with non-empty public key, private key and fingerprint, both derived from one public key |
| SshKey.GeneratedPem | ssh/key.go:78-95 | the private key of a generated record is a PEM block of type "OPENSSH PRIVATE KEY" holding PKCS#8 of the Ed25519 key, or "RSA PRIVATE KEY" holding PKCS#1 of the 4096-bit RSA key |
| SshKey.Import | ssh/key.go:139-192 | undecodable PEM gives "failed to decode PEM block"; another block type gives "unsupported key type: <type>"; an "OPENSSH PRIVATE KEY" body gives "failed to parse ED25519 private key: ..." when it does not parse, "unsupported private key type" when it is not an Ed25519 key, and "failed to convert ED25519 public key: ..." when its public half does not convert; an "RSA PRIVATE KEY" body gives "failed to parse RSA private key: ..." or "failed to convert RSA public key: ..."; an import succeeds exactly when the block is classified, and the record keeps the given bytes as private key, takes its type from the block type, and has the id made from the random bytes and the current time |
| SshKey.ImportGenerated | ssh/key.go:139-192 | importing a generated private key gives back the same type, public key and fingerprint |
| SshKey.ImportDerived | ssh/key.go:180-189 | an imported record's public key text and fingerprint come from the public key of the parsed private key |
| SshKey.SamePublicKeySameFingerprint | ssh/key.go:185-187 | two records with the same public key text have the same fingerprint |
| SshCrypto.KeyEncryption.CipherError | ssh/crypto.go:45-48 | the cipher can be made exactly when the derived key is 16, 24 or 32 bytes long |
| SshCrypto.KeyEncryption.Envelope | ssh/crypto.go:63-68 | the envelope is the bytes of the base64 text of nonce followed by the sealed data |
| SshCrypto.KeyEncryption.Encrypt | ssh/crypto.go:43-69 | encryption succeeds exactly when the cipher can be made and the nonce was read, and then gives the envelope |
| SshCrypto.KeyEncryption.Decrypt | ssh/crypto.go:72-106 | text that is not base64 fails with "failed to decode base64: ..."; a plaintext comes back only from valid base64 |
| SshCrypto.KeyEncryption.EncryptRecord | ssh/crypto.go:109-118 | record encryption succeeds exactly when encrypting the private key does, and replaces only the private key |
| SshCrypto.KeyEncryption.DecryptRecord | ssh/crypto.go:121-130 | record decryption succeeds exactly when decrypting the private key does, and replaces only the private key |
| SshCrypto.KeyEncryption.EncryptKey | ssh/crypto.go:109-118 | the record is overwritten with its encrypted form on success and left as it was on error, whose text is "failed to encrypt private key: ..." |
| SshCrypto.KeyEncryption.DecryptKey | ssh/crypto.go:121-130 | the record is overwritten with its decrypted form on success and left as it was on error, whose text is "failed to decrypt private key: ..." |
| SshCrypto.NewKeyEncryption | ssh/crypto.go:27-40 | the AES key is PBKDF2 of the master key with the salt, 100000 iterations and 32 bytes, so with a lawful library the cipher can always be made |
| SshCrypto.StaleInstanceCannotDecrypt | ssh/crypto.go:27-40 | two instances from one master key with different salts: when no text sealed under the first derived key is sealed under the second, the second fails to decrypt what the first encrypted, with "failed to decrypt: cipher: message authentication failed" |
| SshCrypto.GenerateRandomKey | ssh/crypto.go:133-139 | the master key is 44 base64 characters that decode back to the 32 random bytes |
| SshCrypto.DecryptEncrypt | ssh/crypto.go:43-106 | within one instance, decrypting an encrypted text gives back the plaintext |
| SshCrypto.EncryptLonger | ssh/crypto.go:63-68 | the envelope is longer than the plaintext, so it never equals it |
| SshCrypto.DecryptAuthentic | ssh/crypto.go:92-105 | a plaintext comes back only from a payload that is a nonce followed by that plaintext sealed with that nonce |
| SshCrypto.DecryptTooShort | ssh/crypto.go:92-95 | a decoded payload shorter than the 12-byte nonce gives "ciphertext too short" |
| SshCrypto.RecordFieldsKept | ssh/crypto.go:109-130 | encrypting and decrypting a record change its private key and nothing else |
| SshCrypto.DecryptRecordEncryptRecord | ssh/crypto.go:109-130 | decrypting an encrypted record gives back the record |
| SshStorage.TempFile | ssh/storage.go:151 | the temporary file is never the key's own file |
| SshStorage.Scan | ssh/storage.go:120-141 | the startup scan as a function of the listing, the files and the index so far; what it promises is stated by the Scan* lemmas below |
| SshStorage.Stripped | ssh/storage.go:91-92 | a listed copy has an empty private key and is otherwise the record |
| SshStorage.ScanFilesByOwnId | ssh/storage.go:126-138 | loading files every record under the id it holds |
| SshStorage.ScanReadsJsonFiles | ssh/storage.go:126-138 | every record loaded was decoded from a ".json" file of the directory |
| SshStorage.ScanAbortsOnMalformed | ssh/storage.go:131-135 | one ".json" file that does not decode makes the whole load fail |
| SshStorage.ScanSkipsNonCandidates | ssh/storage.go:127-129 | directories and files without the ".json" extension never affect the load |
| SshStorage.Lookup | ssh/storage.go:63-81 | an absent id gives "key not found: <id>"; a present id gives a result exactly when its record decrypts, and the result is then that decrypted record; a failed decryption gives "failed to decrypt key: ..." |
| SshStorage.KeyStore.Open | ssh/storage.go:21-38 | a store opens exactly when no error is reported; it then holds the crypto instance derived from the master key and salt, and the index that loading the directory listing builds, with every record under its own id |
| SshStorage.KeyStore.LoadKeys | ssh/storage.go:120-141 | on success the index is what the scan of the directory listing builds from the old index |
| SshStorage.KeyStore.Index | ssh/storage.go:138 | indexing a record files it under its own id and changes no other entry |
| SshStorage.KeyStore.LoadKeyFromDisk | ssh/storage.go:168-181 | a result was decoded from the file "<id>.json"; a missing file or one that does not decode is an error |
| SshStorage.KeyStore.Save | ssh/storage.go:41-60 | an encryption failure changes nothing; otherwise the caller's record is encrypted in place; on success it is indexed under its id, written to "<id>.json", and loads back as the plaintext record; a failed write drops the id from the index; other entries are untouched and every record stays under its own id |
| SshStorage.KeyStore.Commit | ssh/storage.go:50-57 | the record is indexed, then written; on success the file holds its encoding, on failure its id leaves the index and no file but the temporary one changed; no other id changes |
| SshStorage.KeyStore.SaveKey | ssh/storage.go:144-165 | success leaves exactly the encoded record in "<id>.json" and no temporary file; a failure changes no file but the temporary one |
| SshStorage.KeyStore.Load | ssh/storage.go:63-81 | the result is a decrypted copy of the indexed record, or "key not found: <id>"; the index is not changed |
| SshStorage.KeyStore.List | ssh/storage.go:84-97 | one copy per indexed record, each without its private key |
| SshStorage.KeyStore.Delete | ssh/storage.go:100-117 | an unknown id gives "key not found: <id>"; success removes the id from the index and "<id>.json" from the directory, after which the id no longer loads; failure changes nothing |
| SshStorage.KeyStore.DeleteKey | ssh/storage.go:184-190 | success means the file existed and is now gone; failure changes nothing |
| SshGitHub.KeyTexts | ssh/github.go:104-108 | a text is in the set built from a listing exactly when some registered key has it |
| SshGitHub.Without | ssh/github.go:51-58 | deleting an id leaves exactly the registered keys with other ids |
| SshGitHub.SyncedTitle | ssh/github.go:121 | the title of a synced key is its name followed by " (synced)" |
| SshGitHub.LoaderOf | ssh/github.go:113 | the loader of a store answers every id as the store's `Load` does |
| SshGitHub.Step | ssh/github.go:111-126 | one turn of the sync loop skips a key exactly when it loads and its text is registered; an upload is for a key that loads, whose text is not registered, under its name followed by " (synced)" |
| SshGitHub.Wanted | ssh/github.go:111-126 | the uploads the sync loop makes over the local keys and the error it stops with, never more uploads than keys; what it promises is stated by the Wanted* lemmas |
| SshGitHub.ProgressStep | ssh/github.go:111-126 | after one more turn, a skip moves on, a failure ends the walk with its error, and an upload is the next one the walk makes |
| SshGitHub.Advance | ssh/github.go:111-126 | the remote list after a turn is the starting list plus the uploads made so far; an error ends the walk with that error |
| SshGitHub.StoreKeepsIds | ssh/storage.go:63-81 | a store whose records sit under their own ids loads keys that keep those ids |
| SshGitHub.StepOwnId | ssh/github.go:113-124 | when loaded keys keep their ids, the second load in `UploadKey` finds what the first did |
| SshGitHub.WantedLoadsAll | ssh/github.go:111-117 | a walk that ends without error loaded every listed key |
| SshGitHub.WantedSendsOnlyMissing | ssh/github.go:118-125 | every upload is for a listed key whose text was not registered at the start |
| SshGitHub.WantedSendsMissing | ssh/github.go:118-125 | when the walk ends without error, every listed key whose text was not registered was uploaded |
| SshGitHub.WantedFailsOnLoad | ssh/github.go:113-116 | the walk fails exactly when some listed key does not load |
| SshGitHub.WantedNothing | ssh/github.go:111-126 | when every listed key loads and its text is registered, nothing is uploaded |
| SshGitHub.AddedTexts | ssh/github.go:32 | after uploads the registered texts are the earlier ones plus the uploaded ones |
| SshGitHub.SecondSyncUploadsNothing | ssh/github.go:91-129 | a second sync right after a successful one uploads nothing |
| SshGitHub.DuplicatesBothUploaded | ssh/github.go:104-125 | two local keys with one unregistered text are both uploaded, since the set of registered texts is taken before the walk |
| SshGitHub.IndexTexts | ssh/github.go:104-108 | the map holds exactly the registered texts, each pointing at a key that has it |
| SshGitHub.GitHubKeyManager.UploadKey | ssh/github.go:24-38 | a key that does not load gives "failed to load key: ..." and nothing is sent; success registers one key with the given title and the stored public-key text; a failed upload gives "failed to upload key to GitHub: ..." and changes nothing |
| SshGitHub.GitHubKeyManager.ListGitHubKeys | ssh/github.go:41-48 | the result is the registered keys, or an error starting "failed to list GitHub SSH keys: " |
| SshGitHub.GitHubKeyManager.DeleteGitHubKey | ssh/github.go:51-58 | success removes the keys with that id; failure changes nothing and starts "failed to delete GitHub SSH key: " |
| SshGitHub.GitHubKeyManager.VerifyKey | ssh/github.go:61-88 | succeeds only when the stored key loads and some registered key has exactly its text; a key that loads but is not registered gives "key not found on GitHub" |
| SshGitHub.GitHubKeyManager.SyncOne | ssh/github.go:111-126 | one turn of the loop does what the sync walk prescribes for that key: skip, fail with its error, or upload one key |
| SshGitHub.GitHubKeyManager.SyncKeys | ssh/github.go:91-129 | the local listing is one stripped copy per indexed record; a failed remote listing uploads nothing; otherwise the uploads made are a prefix of the walk's uploads, in order, and the sync succeeds exactly when all of them went through and no load failed |
| SshGitHub.GitHubKeyManager.SyncAll | ssh/github.go:110-126 | the loop over the local keys: the uploads made are a prefix of the walk's uploads, in order, and it ends without error exactly when all of them went through and no load failed, with the walk's error otherwise |
| ConfigAlias.AliasKey | config/alias.go:55 | an alias is stored under "alias:" followed by its name, and trimming the prefix gives the name back |
| ConfigAlias.IsValidAliasName | config/alias.go:138-145 | true exactly when every character is an ASCII letter, a digit, '-' or '_' |
| ConfigAlias.IsAlphanumeric | config/alias.go:148-152 | an ASCII letter or digit; every character it accepts is below U+0080, so letters outside ASCII are refused |
| ConfigAlias.ValidateAliasName | config/alias.go:125-135 | no error exactly for a non-empty name of allowed characters; the empty name gives "alias name cannot be empty", any other bad name the "invalid alias name: ..." text |
| ConfigAlias.ExtractParameters | config/alias.go:155-169 | the keys are exactly the parameter names of the command's words, each mapped to "" |
| ConfigAlias.Placeholder | config/alias.go:111 | a placeholder is '$' followed by at least one digit |
| ConfigAlias.ParamsOfCommand | config/alias.go:42-49 | the parameters stored with a new alias are the map built from its command |
| ConfigAlias.BlankStep | config/alias.go:116-119 | one step of the second loop removes one more placeholder |
| ConfigAlias.BlankedAbsent | config/alias.go:116-119 | removing placeholders leaves a command without '$' unchanged |
| ConfigAlias.FilledAbsent | config/alias.go:110-113 | once no '$' is left, later arguments change nothing |
| ConfigAlias.ExpandWithoutPlaceholders | config/alias.go:101-122 | a command without '$' expands to itself, trimmed, whatever the arguments |
| ConfigAlias.Expansion | config/alias.go:108-121 | the expanded command has no whitespace at either end; what filling and blanking the placeholders give is stated by the Expand* lemmas |
| ConfigAlias.FillFirst | config/alias.go:112 | filling `$1` of `a$1b$2` replaces it and leaves `$2` |
| ConfigAlias.FillSecond | config/alias.go:112 | filling a trailing `$2` appends the argument |
| ConfigAlias.ExpandTwoPlaceholders | config/alias.go:101-122 | a two-placeholder command gets its missing placeholders replaced by "", ignores extra arguments, and is trimmed only at the ends |
| ConfigAlias.ExpandTrimmed | config/alias.go:101-122 | the expansion of a two-placeholder command is the trimmed filled text |
| ConfigAlias.ExpandAllParameters | config/alias_test.go:216-220 | "git commit -m $1 -a $2" with "message" and "true" expands to "git commit -m message -a true" |
| ConfigAlias.ExpandPartialParameters | config/alias_test.go:221-225 | with only "message" it expands to "git commit -m message -a" |
| ConfigAlias.ExpandExtraParameters | config/alias_test.go:226-230 | a third argument is ignored |
| ConfigAlias.ExpandNoParameters | config/alias_test.go:231-235 | with no argument the code gives "git commit -m  -a", with a double space, and not the "git commit -m -a" the test expects |
| ConfigAlias.TwoDigitParameter | config/alias.go:160-164 | a word "$10" is recorded as a parameter because "10" lies between "1" and "9" in string order |
| ConfigAlias.AliasManager.GetAlias | config/alias.go:59-72 | a missing key gives the store's "key not found: alias:<name>"; a value that is not an alias gives "invalid alias data"; otherwise the stored alias |
| ConfigAlias.AliasManager.CreateAlias | config/alias.go:32-56 | a bad name or an empty command is refused without touching the store; success stores the alias with its parameters under "alias:<name>", so getting it back gives that alias |
| ConfigAlias.AliasManager.DeleteAlias | config/alias.go:75-77 | deleting removes exactly "alias:<name>", after which the alias is gone; a missing alias is the store's error |
| ConfigAlias.AliasManager.ListAliases | config/alias.go:80-98 | the aliases under "alias:" keys, in the order the store's keys are walked |
| ConfigAlias.AliasManager.ExpandAlias | config/alias.go:101-122 | the error of getting the alias, or the expansion of its command with the arguments |
| ConfigAlias.AliasesInListsAliasKeys | config/alias.go:87-95 | an alias is listed exactly when it is stored under some "alias:" key |
| ConfigStorage.TempPath | config/storage.go:78 | the temporary file is never the configuration file itself |
| ConfigStorage.Lookup | config/storage.go:93-103 | a key is found exactly when it is in the cache, with its value; otherwise "key not found: <key>" |
| ConfigStorage.FileStore.Open | config/storage.go:34-52 | a store opens exactly when no error is reported; a missing file gives an empty store, an existing file the decoded pairs; a file that does not decode, or a directory in its place, is an error |
| ConfigStorage.FileStore.Load | config/storage.go:55-65 | "does not exist" exactly when there is no file; success adds the decoded pairs to the cache; failure leaves the cache as it was |
| ConfigStorage.FileStore.Save | config/storage.go:68-90 | success leaves exactly the encoded cache in the file and no temporary file; failure changes no file but the temporary one |
| ConfigStorage.FileStore.Get | config/storage.go:93-103 | the value under the key, or "key not found: <key>" |
| ConfigStorage.FileStore.Set | config/storage.go:106-120 | success stores the value, which then reads back, and writes the new cache to the file; failure removes the key from the cache, even if it had a value before |
| ConfigStorage.FileStore.Delete | config/storage.go:123-141 | an absent key is "key not found: <key>" and changes nothing; otherwise the key leaves the cache even when saving fails |
| ConfigStorage.FileStore.List | config/storage.go:144-155 | the listing is a copy of the cache |
| ConfigStorage.SetThenGet | config/storage.go:106-120 | after a set the key reads back its value and other keys are unaffected |
| ConfigStorage.FailedSetForgets | config/storage.go:114-117 | after a failed set the key is gone and other keys are unaffected |
| ConfigStorage.SavedFileReadsBack | config/storage.go:55-90 | under the JSON law for the cache, the file a successful save leaves decodes, and a store opened on it starts from the saved cache read back: the same keys and strings, every other value, aliases included, turned into a generic decoded value |
| ConfigStorage.TextsReadBackExactly | config/storage.go:60-90 | a cache that holds only strings is read back exactly |
| ConfigAlias.ReadBackListsNoAliases | config/alias.go:86-97 | a cache read back from its file holds no alias, so listing it finds none in any key order |
| ConfigAlias.AliasLostOnRestart | config/alias.go:59-97 | aliases do not survive a restart: once a store is opened on the file a save wrote, an alias saved under its key is "invalid alias data" to `GetAlias`, and `ListAliases` lists no alias |
| ConfigManager.EnvProvider.Get | config/manager.go:43-45 | the value of a set variable, "" for an unset one |
| ConfigManager.EnvProvider.List | config/manager.go:52-60 | every variable is listed, empty values included, with the value `Get` reads; `Get` reads "" for every variable not listed |
| ConfigManager.EnvProvider.Set | config/manager.go:47-49 | sets exactly that variable |
| ConfigManager.Texts | config/manager.go:186-188 | every environment variable contributes its value as a string, under its own name |
| ConfigManager.EnvGet | config/manager.go:99 | the environment's value of a key, or "" when it is unset |
| ConfigManager.Resolve | config/manager.go:94-112 | a non-empty environment value wins; then, in local scope, a value of the local store; otherwise whatever the global store gives, its "key not found" included |
| ConfigManager.GlobalScopeIgnoresLocal | config/manager.go:104-111 | in global scope the local store never matters |
| ConfigManager.DeletedLocalFallsBack | config/manager.go:104-111 | with the key gone from the local store, a local read falls back to the global store |
| ConfigManager.SplitEnv | config/manager.go:225-232 | splits exactly when there is an '=': the key has no '=' and key, '=' and value make up the entry; otherwise two empty strings |
| ConfigManager.Split | config/manager.go:225-232 | a split exists exactly when the entry has an '=', and puts the key before the first one |
| ConfigManager.SplitUnique | config/manager.go:225-232 | the split of "key=value" with no '=' in the key is that key and value |
| ConfigManager.DefaultList | config/manager.go:51-59 | the variables are the environment entries with an '=', split at the first one, a later entry winning |
| ConfigManager.EnvironMapFromEntries | config/manager.go:51-59 | every listed variable comes from some entry "key=value" and its name has no '=' |
| ConfigManager.GlobalConfigPath | config/manager.go:63-72 | the global file is "config.json" in the given directory, or in "$HOME/.config/github-mcp" when none is given |
| ConfigManager.Overlay | config/manager.go:202-219 | copying pairs one by one gives the union, the copied map winning on shared keys |
| ConfigManager.Manager.LocalCache | config/manager.go:78-84 | the local pairs exist exactly when there is a local store |
| ConfigManager.Manager.Open | config/manager.go:62-91 | a manager is made exactly when no error is reported; the global store is at the global path, and a local store exists exactly when a local path is given; each store starts empty when its file is missing and otherwise from what the file decodes to; a failure is reported with the prefix "failed to create global config store: " or, with a local path, "failed to create local config store: ", and a global file that is a directory or does not decode gives the global one |
| ConfigManager.Manager.Get | config/manager.go:94-112 | a read follows the precedence environment, then local in local scope, then global |
| ConfigManager.Manager.Set | config/manager.go:115-132 | writes only the store of the scope; local scope without a local store gives "local configuration is not available"; another scope gives "invalid scope: <scope>"; neither changes anything |
| ConfigManager.Manager.Delete | config/manager.go:135-152 | removes the key from the store of the scope only, so a local delete leaves the global value; the same two scope errors change nothing |
| ConfigManager.Manager.List | config/manager.go:160-191 | the pairs of the scope's store with the environment's variables laid over them, or the scope errors |
| ConfigManager.Manager.ListAll | config/manager.go:194-222 | the global pairs, overlaid by the local ones, overlaid by the environment's |
| ConfigManager.ListAllPrecedence | config/manager.go:194-222 | every key of every source is listed, with the environment's value where it has one, else the local one, else the global one |
| ConfigManager.GetAgreesWithListAll | config/manager.go:94-222 | a read in local scope agrees with the full listing unless the environment holds "" for the key |
| ConfigManager.EmptyEnvValueDisagrees | config/manager.go:99-100 | a variable set to "" is listed as "" but skipped by a read, which falls back to the stores |
| Fs.JsonFile | storage/token.go:57-59 | a record's file is "<id>.json", the name `tokenPath` and ssh/storage.go:150 build, and trimming the extension gives the id back |
| Fs.JsonFileInjective | storage/token.go:57-59 | two ids never share a file |
| TokenStore.Stamped | storage/token.go:67-71 | stamping sets UpdatedAt to now, sets CreatedAt to now only when it was unset, and changes nothing else |
| TokenStore.StampKeepsCreation | storage/token.go:68-71 | storing again keeps the first CreatedAt and moves UpdatedAt |
| TokenStore.Candidates | storage/token.go:119-122 | only non-directory entries with the ".json" extension are read |
| TokenStore.DecodedPerCandidate | storage/token.go:119-137 | a listing yields one token per candidate entry, in order, each decoded from that entry's file |
| TokenStore.DecodedFailsOnMalformed | storage/token.go:129-132 | one candidate file that does not decode makes the whole listing fail |
| TokenStore.DecodedSkip | storage/token.go:120-122 | a skipped entry contributes nothing |
| TokenStore.DecodedTake | storage/token.go:124-134 | a decoded entry contributes its token, in its place |
| TokenStore.FileSystemStore.Open | storage/token.go:46-54 | a store is made exactly when no error is reported; a failure starts "failed to create token store directory: " |
| TokenStore.FileSystemStore.StoreToken | storage/token.go:62-85 | the caller's token is stamped in place even when the write fails; success writes the encoded token to "<id>.json"; a failure changes no other file |
| TokenStore.FileSystemStore.GetToken | storage/token.go:88-106 | "token not found: <id>" exactly when the file does not exist; a result was decoded from the token's file; a malformed file or a directory is an error |
| TokenStore.FileSystemStore.ListTokens | storage/token.go:109-138 | a result is the decoded tokens of the candidate entries, in listing order; if any candidate is missing or malformed the listing fails |
| TokenStore.FileSystemStore.DeleteToken | storage/token.go:141-153 | "token not found: <id>" exactly when the file did not exist; success removes only that file; failure changes nothing |
| TokenStore.StoredTokenReadsBack | storage/token_test.go:31-65 | with a codec that reads back what it wrote, the file a successful store leaves decodes to the stamped token, with the same ID, AccessToken and TokenType |
| AuthTools.TokenArg | auth/tools.go:31-34 | a token is given exactly when the "token" argument is a non-empty string, and it is that string |
| AuthTools.Scopes | auth/tools.go:36-39 | the "scopes" argument when it is a list of strings, otherwise ["repo", "user"] |
| AuthTools.NotFoundOnlyForPat | auth/tools.go:99-101 | only the store's "token not found" error for the id "pat" counts as not found; no other error text of the store does |
| AuthTools.IsNotFoundError | auth/tools.go:99-101 | an error counts as not found exactly when it is the store's "token not found: " text for the id "pat" |
| AuthTools.LoginStoresPat | auth/tools.go:41-50 | after a successful login the file of "pat" decodes to a bearer token with the given value and scopes, created and updated now |
| AuthTools.Tool.NewTool | auth/tools.go:18-27 | a tool is made exactly when no error is reported, over the token store of the given directory; a failure starts "failed to create token store: " |
| AuthTools.Tool.LoginWithToken | auth/tools.go:30-57 | without a token it fails with "token argument is required" and writes nothing; success writes the stamped "pat" token and answers with its scopes; a store failure starts "failed to store token: " and touches no other file |
| AuthTools.Tool.Logout | auth/tools.go:60-70 | succeeds exactly when no token file is left afterwards, having removed it if it was there; any other failure starts "failed to remove token: " and changes nothing |
| AuthTools.Tool.GetAuthStatus | auth/tools.go:73-91 | "Not authenticated" exactly when there is no token file; otherwise the type and scopes of the decoded token; a malformed file is an error starting "failed to get token status: " |
| AuthTools.Tool.GetToken | auth/tools.go:94-96 | the decoded "pat" token; "token not found: pat" exactly when there is none |
| Protocol.NewRequest | protocol/protocol.go:51-58 | a request carries version "2.0", the id, the method and the params, and with a method it is a request and nothing else |
| Protocol.NewResponse | protocol/protocol.go:61-67 | a response carries version "2.0", the id and the result, and is a success response and nothing else |
| Protocol.NewErrorResponse | protocol/protocol.go:70-80 | an error response carries version "2.0", the id and the error with its code, message and data, and is an error response and nothing else |
| Protocol.TextContent | protocol/protocol.go:189-194 | text content has type "text", the text, and no error flag |
| Protocol.ErrorContent | protocol/protocol.go:197-203 | error content has type "text", the text, and the error flag set |
| Protocol.ContentKindsDiffer | protocol/protocol.go:189-203 | text and error content of one text differ only in the error flag |
| Protocol.ErrorCodesDistinct | protocol/protocol.go:20-38 | the fourteen error codes are pairwise distinct; the JSON-RPC ones lie in -32768..-32000 and the MCP ones in -32099..-32000 |
| Server.ParseParams | server/server.go:252-264 | the params parse exactly when they marshal and the bytes unmarshal, then to the unmarshalled value; a failure is reported with the "failed to marshal params: " or "failed to unmarshal params: " prefix and the underlying error |
| Server.NoDefinitions | server/server.go:188-195 | since no tool name has a definition, the definitions listed for any order of names are none |
| Server.ToolDefinition | server/server.go:267-270 | the placeholder knows no tool: every name has no definition |
| Server.InitializeResponse | server/server.go:145-177 | the answer carries the id and is one kind of response; an initialized server refuses with AlreadyInitialized and stays initialized; otherwise the server becomes initialized exactly when the params parse, answering the server's initialize result, and an invalid-params error otherwise |
| Server.ListToolsResponse | server/server.go:180-205 | the answer carries the id; it succeeds exactly when the params parse, then with an empty tool list and no cursor, and is an invalid-params error otherwise |
| Server.CallToolResponse | server/server.go:208-228 | the answer carries the id and is one kind of response; it succeeds exactly when the params parse, the tool is registered and its handler succeeds |
| Server.Respond | server/server.go:111-142 | every response answers the request's id with version "2.0", is a success or an error response and not a request, and the server is initialized afterwards exactly when it was before or the request is an initialize whose params parse |
| Server.EmptyMethodInvalid | server/server.go:119-121 | a request without a method is an invalid request "Missing method" in any state and changes no state |
| Server.NotInitializedRefuses | server/server.go:129-131 | before initialization every method other than initialize is refused with NotInitialized and the server stays uninitialized |
| Server.FirstInitialize | server/server.go:145-177 | the first initialize whose params parse succeeds with protocol version "1.0" and the tools capability and initializes the server; one whose params do not parse is an invalid-params error and leaves it uninitialized |
| Server.LaterInitializeRefused | server/server.go:150-152 | every initialize on an initialized server is refused with AlreadyInitialized |
| Server.UnknownMethod | server/server.go:134-141 | once initialized, any method other than initialize, tools/list and tools/call is "Method not found" |
| Server.CallTool | server/server.go:208-228 | tools/call: unparsable params are invalid params with the parse error, an unregistered name is ToolNotFound, a handler error is InternalError with the handler's text, and otherwise the result is the handler's result |
| Server.ListToolsEmpty | server/server.go:180-205 | tools/list with parsable params answers an empty tool list without a cursor |
| Server.Session | server/server.go:50-90 | a session answers every request with exactly one response, and an initialized server stays initialized |
| Server.SessionAnswersIds | server/server.go:111-142 | the i-th response of a session answers the i-th request's id |
| Server.NoneAcceptedAfter | server/server.go:150-152 | on an initialized server no initialize of a session is accepted |
| Server.AtMostOneInitialize | server/server.go:145-161 | in every session at most one initialize is accepted, and none when the server starts initialized |
| Server.Server.constructor | server/server.go:42-47 | a new server is uninitialized with no tools registered |
| Server.Server.HandleRequest | server/server.go:111-142 | the response and the new initialized flag are those of Respond on the old flag; the tool registry is unchanged |
| Server.Server.HandleInitialize | server/server.go:145-177 | refuses a second initialize, reports unparsable params, and otherwise sets the flag and answers the server's initialize result; the registry is unchanged |
| Server.Server.HandleListTools | server/server.go:180-205 | with parsable params the loop visits every registered name exactly once and lists the definitions of the visited names in that order; otherwise it is an invalid-params error |
| Server.Server.HandleCallTool | server/server.go:208-228 | the response is the tools/call answer for the registry: invalid params, tool not found, internal error from the handler, or the handler's result |
| OrgErrors.PermissionsExactly | org/errors.go:25-32 | a repository permission is valid exactly when it is read, write or admin |
| OrgErrors.TeamPermissionsExactly | org/errors.go:35-44 | a team permission is valid exactly when it is pull, push, admin, maintain or triage |
| OrgErrors.OnlyAdminIsBoth | org/errors.go:25-44 | admin is the one string valid both as a repository and as a team permission |
| OrgErrors.ChecksAreExact | org/errors.go:20-44 | the role and permission checks compare exactly: other case, surrounding blanks and the empty string are refused |
| OrgErrors.ValidRole | org/errors.go:20-22 | true exactly for "member" and "admin"; `OrgErrors.ChecksAreExact` shows the comparison is exact |
| OrgErrors.ValidPermission | org/errors.go:25-32 | a lookup in the literal map, absent keys reading false; `OrgErrors.PermissionsExactly` states the accepted set |
| OrgErrors.ValidTeamPermission | org/errors.go:35-44 | a lookup in the literal map, absent keys reading false; `OrgErrors.TeamPermissionsExactly` states the accepted set |
| OrgService.ChecksAgree | internal/org/service.go:60-73 | the service's own role and team-permission checks accept exactly what the org package's checks accept: member or admin, and pull, push, admin, maintain or triage |
| OrgService.ValidateRole | internal/org/service.go:60-62 | the service's role check accepts exactly what `OrgErrors.ValidRole` accepts |
| OrgService.ValidateTeamPermission | internal/org/service.go:64-73 | the service's team-permission check accepts exactly what `OrgErrors.ValidTeamPermission` accepts |
| OrgService.PermissionError | internal/org/service.go:118-120 | a team's parameters are refused exactly when their permission is non-empty and not a valid team permission, with the text "invalid team permission: " and the permission |
| OrgService.PermissionErrorText | internal/org/service.go:118-119 | the permission "invalid" is refused with the text "invalid team permission: invalid" |
| OrgService.ChildrenExactly | internal/org/service.go:167-171 | a team is among the nested teams exactly when it is listed and its parent has the parent's id |
| OrgService.ChildrenInOrder | internal/org/service.go:167-171 | the nested teams keep the listing order |
| OrgService.OrganizationApi.ListOrganizations | internal/types/api.go:5 | the call is recorded and answered by the answer function of the earlier calls |
| OrgService.OrganizationApi.GetOrganization | internal/types/api.go:6 | the call is recorded and answered by the answer function of the earlier calls |
| OrgService.OrganizationApi.ListMembers | internal/types/api.go:8 | the call is recorded and answered by the answer function of the earlier calls |
| OrgService.OrganizationApi.Send | internal/types/api.go:7-10 | a call that returns only an error is recorded and answered by the outcome function of the earlier calls |
| OrgService.TeamApi.ListTeams | internal/types/api.go:15 | the call is recorded and answered by the answer function of the earlier calls |
| OrgService.TeamApi.OneTeam | internal/types/api.go:16-17 | a get or create call is recorded and answered by the team function of the earlier calls |
| OrgService.TeamApi.ListTeamRepos | internal/types/api.go:22 | the call is recorded and answered by the answer function of the earlier calls |
| OrgService.TeamApi.Send | internal/types/api.go:18-24 | a call that returns only an error is recorded and answered by the outcome function of the earlier calls |
| OrgService.Client.constructor | internal/org/service.go:52-57 | the service holds the two APIs it is given |
| OrgService.Client.ListOrganizations | internal/org/service.go:77-79 | passes the call to the organisation API once and returns its answer |
| OrgService.Client.GetOrganization | internal/org/service.go:81-83 | passes the call to the organisation API once and returns its answer |
| OrgService.Client.UpdateSettings | internal/org/service.go:85-87 | passes the call to the organisation API once and returns its error |
| OrgService.Client.ListMembers | internal/org/service.go:89-91 | passes the call to the organisation API once and returns its answer |
| OrgService.Client.AddMember | internal/org/service.go:93-98 | a role other than member or admin is refused with the invalid-role text and the API is not called; otherwise the call is passed on once and its error returned |
| OrgService.Client.RemoveMember | internal/org/service.go:100-102 | passes the call to the organisation API once and returns its error |
| OrgService.Client.ListTeams | internal/org/service.go:106-108 | passes the call to the team API once and returns its answer |
| OrgService.Client.GetTeam | internal/org/service.go:110-112 | passes the call to the team API once and returns its answer |
| OrgService.Client.CreateTeam | internal/org/service.go:114-122 | nil parameters and a non-empty invalid permission are refused without calling the API; otherwise the API creates the team once and its answer is returned |
| OrgService.Client.UpdateTeam | internal/org/service.go:124-129 | a non-empty invalid permission is refused without calling the API; otherwise the update is passed on once and its error returned |
| OrgService.Client.DeleteTeam | internal/org/service.go:131-133 | passes the call to the team API once and returns its error |
| OrgService.Client.AddTeamMember | internal/org/service.go:135-137 | passes the call to the team API once and returns its error |
| OrgService.Client.RemoveTeamMember | internal/org/service.go:139-141 | passes the call to the team API once and returns its error |
| OrgService.Client.ListTeamRepos | internal/org/service.go:143-145 | passes the call to the team API once and returns its answer |
| OrgService.Client.AddTeamRepo | internal/org/service.go:147-149 | passes the call to the team API once and returns its error |
| OrgService.Client.RemoveTeamRepo | internal/org/service.go:151-153 | passes the call to the team API once and returns its error |
| OrgService.Client.GetNestedTeams | internal/org/service.go:155-174 | lists the teams, returning a listing error before anything else, then fetches the named team, returning its error, then answers the listed teams whose parent has that team's id, in listing order |

## Left out

- Aliases are lost when the configuration is reopened. `CreateAlias` stores an `*Alias`, but `load` decodes the file into a `map[string]interface{}`, so the alias returns as a generic map. `GetAlias` then reports "invalid alias data" and `ListAliases` skips it. The model proves this (`ConfigAlias.AliasLostOnRestart`) rather than hiding it.
- SshCrypto.KeyEncryption.Decrypt: keeps only the prefix of the base64 failure text, "failed to decode base64: illegal base64 data". Go appends " at input byte N", and the model does not compute the offset.
- Fs.JsonFile: is `id + ".json"` in the store's directory. `filepath.Join` also cleans the joined path, so an id holding "/" or ".." would name a file elsewhere; the model treats every id as a plain file name.
- ConfigManager.GlobalConfigPath: joins with "/" and does not clean the path as `filepath.Join` does. With an empty HOME the model gives "/.config/github-mcp/config.json", where Go gives the relative ".config/github-mcp/config.json"; a directory "d/" gives "d//config.json" in the model and "d/config.json" in Go. Repeated separators and "." or ".." elements are kept as written.
- Cryptographic primitives are parameters, with only the laws the code relies on (`Primitives.Lawful`):
  - Ed25519 and RSA generation;
  - PKCS#8 and PKCS#1 marshalling and parsing;
  - PEM framing;
  - the SSH public-key wire format;
  - SHA-256, PBKDF2 and AES-GCM.
- The text built from a public key is written out:
  - the authorized-key line;
  - the `SHA256:` fingerprint over the raw base64 of the hash.
- Randomness and the clock are parameters: the bytes read for ids, nonces, salts and master keys, and the time readings.
  - `generateKeyID` ignores the error of its random read, so the model takes the 16 bytes as given.
  - `NewKeyEncryption` and `GenerateRandomKey` panic when the random source fails. The model takes the salt and the key bytes as inputs, so these panics are not modelled.
- The file system is one directory per store: a map from name to entry, where every `os` call may fail nondeterministically.
  - Rename atomicity, file modes and `MkdirAll` of parent paths beyond the directory itself are the operating system's.
  - The token store's `filepath.Join(storagePath, "auth")` is the `Dir` handed to `AuthTools.Tool.NewTool`.
- `encoding/json` is an abstract codec bound by the laws above, not a concrete encoding. What `json.Unmarshal` makes of a config value that is not a string (maps, float64 numbers) is an opaque decoded value.
- Directory listings and Go map iteration are taken in an arbitrary order (any enumeration of the names), not the sorted order `os.ReadDir` gives. So `ListTokens`, `ListAliases` and `List` promise content, not order.
- Locking is not modelled: the mutexes of `KeyStore`, `FileStore`, `Manager`, `FileSystemStore` and `Server`.
  - That includes the unlocked read of `initialized` in `handleRequest`.
  - `FileStore.Set` and `Delete` call `save` while holding the write lock, and `save` takes the read lock. With Go's non-reentrant `RWMutex` that deadlocks. The model gives these calls the behaviour the code evidently intends: save, then roll back on failure.
- The `Serve` loop is not modelled: the goroutine per request, the transport and the stdio framing. `Server.Session` stands for handling requests one after another.
- `registerTools` fills the registry from handlers defined in server/tools.go, which is not part of this model. The registry is a map of handler functions, and a new `Server` starts with an empty one.
- A tool handler that returns a nil result with no error: each handler is a function giving a result or an error.
- `GitHub` HTTP calls are a `Remote` object whose calls may fail. A duplicate-key rejection is a plain failure, like any other.
- The organisation APIs are remote. Each answers a call by a function of the calls made before it.
  - The model states what the service sends them and what it returns, not what the remote does.
  - Reference identity of the returned `*Team` values is not modelled; teams are values.
- `OrgService.Client.UpdateTeam`: requires parameters, because the code dereferences a nil `params` and panics. `CreateTeam` checks for nil.
- `fmt`'s `%v` of a `[]string` is written as the bracketed, space-separated items. A nil slice and an empty one print alike, and the model does not tell them apart.
- `Scopes` defaults to ["repo", "user"] unless the argument is a Go `[]string`. JSON decoding never produces one, so over the wire the default always applies.
- Debug logging (`log.Printf`) is not modelled, since it does not change behaviour.
