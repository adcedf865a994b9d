# Verified models of the block ciphers and of the SQL compiler

The repository bundles a SQLite/SQLCipher stack: LibTomCrypt's block ciphers in C underneath, and on top a Swift layer
that compiles typed expressions and queries to SQL templates with bindings. This project models both and proves, for
all inputs, what they are for: that decryption undoes encryption for every key and block, that fast table-driven code
computes the published definitions, that compiled SQL carries the right values in the right holes, exactly when it is
read back as it was built, and exactly when moving a joined query's filter into the join condition keeps the rows.

The project is checked with `dafny verify dfyconfig.toml`.

## The ciphers

| modules | what they cover |
|---|---|
| `Words` | bytes, 32-bit words with wrap-around, big-endian loads and stores |
| `Multi2`, `Multi2Vector` | the four step functions, any number of rounds, the fall-through switch, a test vector |
| `Fermat`, `IdeaArithmetic`, `Idea` | Fermat's little theorem, the multiplication modulo 65537, both schedules, the one block routine |
| `AnubisField`, `AnubisTweakedTables`, `AnubisOriginalTables`, `Anubis`, `AnubisCipher` | GF(2^8), the structure of T0 .. T5 in both builds, key evolution, inverse schedule, the one block routine |
| `CamelliaTables`, `Camellia`, `CamelliaKeys`, `CamelliaCipher`, `CamelliaVector` | the packed F, the 128-bit rotation, the subkeys of RFC 3713, the FL layers, a test vector |
| `DesTables`, `DesBoxes`, `DesPermutation`, `DesKeys`, `DesCipher`, `DesStandard`, `DesKeyed` | both forms of IP and FP, the bit-level schedule, the rounds, single DES as the standard defines it, triple DES |
| `Feistel` | one inversion theorem for XOR chains of any length over arbitrary functions |
| `KasumiTables`, `KasumiBoxes`, `Kasumi`, `KasumiCipher`, `KasumiVector`; `Blowfish`, `BlowfishCipher`; `Seed`; `Cast5Keys`, `Cast5` | its instances, with the ranges and bijections of KASUMI, the key expansion of Blowfish, the rotating schedule of SEED and the key network and the two round counts of CAST5 |

Each routine is a method over the source's own arrays, with its loops, proved against a specification function; the
round trips are lemmas about those functions and are carried to bytes by the `RoundTripInPlace` methods, which use one
buffer for plaintext and ciphertext. Straight-line C code is split into helper methods where it is long.

Readings of what the sources do not show: `LOAD32H`, `LOAD64H` and their stores are big-endian; `LTC_BYTE(x, n)` counts
from the low end; `ROL` rotates 32 bits with its count taken modulo 32; `LTC_IDEA_ROUNDS` is 8 and `LTC_IDEA_KEYLEN` 52.
The build switches `LTC_SMALL_CODE` (DES) and the Anubis tweak are parameters. Null-pointer checks become types. A
caller's buffer is not the key's own memory (the predicates `Apart`). IDEA keeps 16-bit words as integers with explicit
wrap-around, so the OR of two values without common bits appears there as their sum. The S-boxes of Blowfish, SEED and
CAST5 are arbitrary tables; those of the other ciphers are the source's.

## The SQL compiler

| modules | what they cover |
|---|---|
| `SqlTemplate`, `SqlLiterals` | quoting, join, wrap, infix, literals, asSQL; literals read back from its print |
| `SqlFragment`, `SqlQuery`, `SqlHoles`, `SqlBindings` | clause renderers, queries with nested queries, statement builders; holes, bindings and their order |
| `SqlText`, `SqlSelect`, `SqlSelectReads`, `SqlStatement`, `SqlInsert` | a reader for SELECT, INSERT, UPDATE and DELETE that knows SQL's words, quotes and parentheses; compiled statements read back as themselves; what inserts store |
| `SqlGrammar`, `SqlReader`, `SqlParens`, `SqlRanges` | expression trees with their parentheses, a lexer, a parser with SQLite's published operator precedence that reads back exactly the trees respecting it, range operators |
| `SqlJoin`, `SqlJoinQuery`, `SqlJoinClauses` | rows, three-valued logic, the resolution of names, join chains, the compiled joins read back and run, and what they lose |

Strings are sequences of atomic characters. Columns, conditions and values reach the query model as compiled
expressions. The text of a number is a parameter, as its description is Foundation's. In the row model AND has its meaning
in three-valued logic; that of every other operator, of BETWEEN and of literals is arbitrary.

The readers are cursors over a template with the bindings still to come. They spell out SQL's words themselves, and ask of
a column, condition or value only that nothing in it ends the clause it stands in, which `SqlText.TreesAreCalm` proves for
names, values and operator expressions.

Names in ON are resolved as the bundled SQLite does it (`Sources/SQLCipher/sqlite/sqlite3.c:116697-116858`,
`155681-155689`, `162441-162481`): the ON of an inner or cross join is a condition of WHERE, so a name may refer to any
table of the FROM list and must refer to exactly one; that of a left outer join must not name tables to its right; the case
of ASCII letters does not count. A double-quoted name that resolves to nothing is an error, as with `DQS_0`, the default
build. Rows come in the order of nested loops over the tables as written.

## What turned out otherwise

- Names are quoted but not escaped for `?`: a table or column name with a question mark leaves a hole without a binding
  (`SqlTemplate.QuestionMarkInName`); `SqlHoles.QueryBalancedIffNamesPlain` says exactly when queries are balanced.
- NOT is printed as a bare prefix. To the left of a tighter operator, or to the right of IS, it is read differently from
  how the tree was built (`SqlReader.NotMisread`); `SqlReader.OperatorsReadAsBuilt` gives the exact condition.
- Range operators print no parentheses, so next to other operators a range can fall apart (`SqlRanges.RangeFallsApart`);
  `SqlRanges.RangeOnTheLeft` and `SqlRanges.RangeOnTheRight` say next to which.
- Of a joined query only name and filter survive (`SqlJoinClauses.JoinedClausesAreLost`); `LimitChangesRows`,
  `DistinctChangesRows` and `UnionChangesRows` say when a lost limit, DISTINCT or UNION ALL changes the rows.
- A filter by a bare name that another table of the chain shares does not resolve inside ON, be that table joined before or
  after (`SqlJoinQuery.SharedNameFails`); `SqlJoin.FoldingIsFaithful` says exactly when folding keeps the rows.
- `and()` and `or()` without terms compile to an empty pair of parentheses (`SqlReader.NaryOfNothing`).
- A multi-row insert names the columns of its first row only: a row that lists its setters in another order stores values
  in the wrong columns, and one of another length makes the statement invalid (`SqlInsert.RowsStoreAsSet`).
- An upsert of the conflict target alone compiles an empty list of assignments (`SqlInsert.UpsertEndsIncomplete`), and so
  does an update without values; neither is a statement (`SqlStatement.UpsertReadsBack`, `SqlStatement.UpdateReadsBack`).
- A query united last with an order or a limit of its own orders or limits the whole (`SqlSelectReads.LastUnitedEndsAll`).
- CAST5 accepts 16 rounds for short keys and runs 12 (`Cast5.RoundsAsRequested`).
- Anubis and Camellia store the round count in the key before they refuse a request for another one, so a refused setup
  leaves old subkeys with a new round count (`AnubisCipher.RefusedSetup`, `CamelliaCipher.RefusedSetup`). The lemmas
  `WrongRoundCount` of both say which blocks encrypted before still come back. When more rounds are run than the key was set
  up for, what else the key memory holds decides: of two contents that differ in the last round key alone, Anubis loses
  every block under at least one (`Anubis.LeftoverDecides`); of two that differ in one bit of it, Camellia loses some block
  under at least one (`Camellia.SomeBlockIsLost`).

## Model

| member | source | states |
|---|---|---|
| Multi2.SPi2 | Sources/SQLCipher/libtomcrypt/ciphers/multi2.c:17-24 | The statements of s_pi2 leave in p what the second step function gives |
| Multi2.SPi3 | Sources/SQLCipher/libtomcrypt/ciphers/multi2.c:26-36 | The same for s_pi3, including the OR with p[0] in its last line |
| Multi2.SPi4 | Sources/SQLCipher/libtomcrypt/ciphers/multi2.c:38-44 | The same for s_pi4 |
| Multi2.ApplyInvolution | Sources/SQLCipher/libtomcrypt/ciphers/multi2.c:12-44 | Each of the four step functions is its own inverse for every key |
| Multi2.SSetup | Sources/SQLCipher/libtomcrypt/ciphers/multi2.c:46-72 | uk is the changed half after each of steps 2 to 9 of the nine-step system-key run, the key offset switching after the fifth step |
| Multi2.SEncrypt | Sources/SQLCipher/libtomcrypt/ciphers/multi2.c:74-84 | For every N >= 1 the break-out loop applies steps 0 .. N-1 with key offset 4*((n/4) mod 2) |
| Multi2.SDecrypt | Sources/SQLCipher/libtomcrypt/ciphers/multi2.c:86-99 | For every N >= 1 the loop ends and its fall-through switch undoes steps N-1 .. 0 with the matching key offsets |
| Multi2.BackwardUndoesForward | Sources/SQLCipher/libtomcrypt/ciphers/multi2.c:74-99 | For every N, every uk and every block, decryption undoes encryption |
| Multi2.ForwardUndoesBackward | Sources/SQLCipher/libtomcrypt/ciphers/multi2.c:74-99 | ... and encryption undoes decryption |
| Multi2.DecryptUndoesEncrypt | Sources/SQLCipher/libtomcrypt/ciphers/multi2.c:145-178 | Both round trips on stored bytes |
| Multi2.Key.Setup | Sources/SQLCipher/libtomcrypt/ciphers/multi2.c:114-136 | Key length check, 0 rounds read as 128, and the working key of the 40 key bytes |
| Multi2.Key.EcbEncrypt | Sources/SQLCipher/libtomcrypt/ciphers/multi2.c:145-157 | ct holds the encryption of pt, nothing behind the block changes, pt and ct may coincide |
| Multi2.Key.EcbDecrypt | Sources/SQLCipher/libtomcrypt/ciphers/multi2.c:166-178 | The same for decryption |
| Multi2.RoundTripInPlace | Sources/SQLCipher/libtomcrypt/ciphers/multi2.c:114-178 | Setup, encryption and decryption in one buffer restore it, for every key and every round count |
| Multi2Vector.WorkingKeyIs | Sources/SQLCipher/libtomcrypt/ciphers/multi2.c:216-239 | The eight key words that the schedule makes of the second test key |
| Multi2Vector.KnownAnswer | Sources/SQLCipher/libtomcrypt/ciphers/multi2.c:216-239 | The second test vector: its block under its key in 216 rounds, byte for byte |
| Fermat.LittleTheorem | Sources/SQLCipher/libtomcrypt/ciphers/idea.c:52-62 | x^(p-1) = 1 modulo every prime p, for 0 < x < p |
| Fermat.FermatPrime | Sources/SQLCipher/libtomcrypt/ciphers/idea.c:52-62 | 65537 is prime |
| IdeaArithmetic.MUL | Sources/SQLCipher/libtomcrypt/ciphers/idea.c:40-48 | The low-minus-high computation with its two 16-bit wrap-arounds gives the product modulo 65537 with 0 standing for 65536 |
| IdeaArithmetic.SMulInv | Sources/SQLCipher/libtomcrypt/ciphers/idea.c:52-62 | The 15 square-and-multiply steps reach x^65535 |
| IdeaArithmetic.MulInverse | Sources/SQLCipher/libtomcrypt/ciphers/idea.c:52-62 | For every 16-bit x, MUL(x, s_mul_inv(x)) is 1 |
| IdeaArithmetic.MulAssociative | Sources/SQLCipher/libtomcrypt/ciphers/idea.c:40-48 | MUL is associative, so multiplying by the inverse cancels |
| IdeaArithmetic.XorCancels | Sources/SQLCipher/libtomcrypt/ciphers/idea.c:116-125 | XOR of 16-bit words, defined bit by bit, cancels a value added twice |
| Idea.SEncKeys | Sources/SQLCipher/libtomcrypt/ciphers/idea.c:75-82 | The loop fills ek with the key words and then the shifted words of the previous group |
| Idea.NextGroupRotates | Sources/SQLCipher/libtomcrypt/ciphers/idea.c:79-82 | One group of eight words is the previous 128 bits rotated left by 25 |
| Idea.EncKeysRotate | Sources/SQLCipher/libtomcrypt/ciphers/idea.c:75-82 | Every complete group of ek is the rotation of the one before it |
| Idea.SDecKeys | Sources/SQLCipher/libtomcrypt/ciphers/idea.c:84-96 | The loop fills dk with inverses in reverse order, the additive keys swapped in all groups but the first and the last |
| Idea.SProcessBlock | Sources/SQLCipher/libtomcrypt/ciphers/idea.c:101-139 | The round loop with its in-place updates and swapped output computes the rounds of the specification |
| Idea.MixLayerInvolution | Sources/SQLCipher/libtomcrypt/ciphers/idea.c:116-125 | The MA layer undoes itself |
| Idea.RoundSeenFromOutside | Sources/SQLCipher/libtomcrypt/ciphers/idea.c:111-125 | One round by its input and output words: the two masks found twice each, and what multiplying them back by the inverses of the last two subkeys, the first before the addition and the second behind it, leaves of the keyed words |
| Idea.OutputSeenFromOutside | Sources/SQLCipher/libtomcrypt/ciphers/idea.c:127-135 | The output transformation by its input and output words: which subkey meets which word, the inner two in exchanged places |
| Idea.KeyWordsInOrder | Sources/SQLCipher/libtomcrypt/ciphers/idea.c:75-77 | The first eight subkeys are the key as one big-endian number |
| Idea.BlockInOrder | Sources/SQLCipher/libtomcrypt/ciphers/idea.c:101-139 | A block is loaded and stored as one big-endian number |
| Idea.CryptInverse | Sources/SQLCipher/libtomcrypt/ciphers/idea.c:84-139 | For every ek and every block, the block routine under the inverted keys undoes itself under ek, and the other way round: inverting the keys twice gives ek back |
| Idea.DecryptUndoesEncrypt | Sources/SQLCipher/libtomcrypt/ciphers/idea.c:101-168 | Both directions for every user key, on stored bytes |
| Idea.Key.Setup | Sources/SQLCipher/libtomcrypt/ciphers/idea.c:69-150 | Round count checked before key length; both schedules of the key |
| Idea.Key.EcbEncrypt | Sources/SQLCipher/libtomcrypt/ciphers/idea.c:152-159 | Encryption into ct, which may be pt |
| Idea.Key.EcbDecrypt | Sources/SQLCipher/libtomcrypt/ciphers/idea.c:161-168 | Decryption into pt, which may be ct |
| Idea.RoundTripInPlace | Sources/SQLCipher/libtomcrypt/ciphers/idea.c:141-168 | Setup, encryption and decryption in one buffer restore it |
| AnubisTweakedTables.SInvolution | Sources/SQLCipher/libtomcrypt/ciphers/anubis.c:305-371 | The S-box of the tweaked build is an involution |
| AnubisOriginalTables.SInvolution | Sources/SQLCipher/libtomcrypt/ciphers/anubis.c:723-789 | The S-box of the original build is an involution |
| AnubisTweakedTables.Rows | Sources/SQLCipher/libtomcrypt/ciphers/anubis.c:37-371 | T0 .. T3 are the S-box value times the four rows of had(1,2,4,6), T4 the value four times |
| AnubisOriginalTables.Rows | Sources/SQLCipher/libtomcrypt/ciphers/anubis.c:455-789 | The same for the original build |
| AnubisTweakedTables.Vandermonde | Sources/SQLCipher/libtomcrypt/ciphers/anubis.c:372-441 | T5 holds the multiples by 1, 2, 6 and 8 |
| AnubisOriginalTables.Vandermonde | Sources/SQLCipher/libtomcrypt/ciphers/anubis.c:790-859 | The same for the original build |
| AnubisField.ThetaLinear | Sources/SQLCipher/libtomcrypt/ciphers/anubis.c:1046-1069 | The matrix is linear over XOR |
| AnubisField.ThetaInvolution | Sources/SQLCipher/libtomcrypt/ciphers/anubis.c:1046-1069 | had(1,2,4,6) over GF(2^8) is its own inverse |
| Anubis.GammaTauTwice | Sources/SQLCipher/libtomcrypt/ciphers/anubis.c:1046-1073 | Substitution with transposition is an involution on the state |
| Anubis.RoundConstants | Sources/SQLCipher/libtomcrypt/ciphers/anubis.c:442-861 | In both builds the r-th round constant is made of the S-box values of 4r, 4r+1, 4r+2 and 4r+3 |
| Anubis.EvolvedByte | Sources/SQLCipher/libtomcrypt/ciphers/anubis.c:978-988 | Every byte of a key state is recovered from the next one by taking off the constant, undoing the diffusion and substituting |
| Anubis.KeyStateByte | Sources/SQLCipher/libtomcrypt/ciphers/anubis.c:913-989 | ... for the states of the whole schedule |
| Anubis.SelectSeenFromOutside | Sources/SQLCipher/libtomcrypt/ciphers/anubis.c:931-956 | One more word in front of the key words multiplies each row of the round key by 1, 2, 6 and 8 and adds a substituted byte of that word to it |
| Anubis.SelectOfOne | Sources/SQLCipher/libtomcrypt/ciphers/anubis.c:931-956 | ... and of a single word every row is one substituted byte, four times |
| Anubis.RoundSeenFromOutside | Sources/SQLCipher/libtomcrypt/ciphers/anubis.c:1046-1073 | A round by its two ends: taking off the key, undoing the diffusion and substituting gives the state before it, transposed |
| Anubis.EndsSeenFromOutside | Sources/SQLCipher/libtomcrypt/ciphers/anubis.c:1030-1114 | The first key is added in front of the rounds, and the last round has no diffusion |
| Anubis.TableColumnIsRound | Sources/SQLCipher/libtomcrypt/ciphers/anubis.c:1046-1069 | Four table rows added are substitution, transposition and diffusion in one |
| Anubis.MaskedColumnIsLastRound | Sources/SQLCipher/libtomcrypt/ciphers/anubis.c:1079-1102 | The masked rows of the last round leave the diffusion out |
| Anubis.HornerIsSum | Sources/SQLCipher/libtomcrypt/ciphers/anubis.c:931-956 | Horner's rule over T5 evaluates the sum that the commented-out table form stands for |
| Anubis.CryptInverse | Sources/SQLCipher/libtomcrypt/ciphers/anubis.c:994-1114 | For every schedule of 13 .. 19 round keys and every state, the rounds under the inverse schedule undo the rounds, and the rounds undo them |
| AnubisCipher.SelectRoundKey | Sources/SQLCipher/libtomcrypt/ciphers/anubis.c:931-956 | The loop over K0 .. K3 computes the round key of a key state |
| AnubisCipher.EvolveKappa | Sources/SQLCipher/libtomcrypt/ciphers/anubis.c:978-988 | The diagonal loop with its wrapping index and the round constant computes the next key state |
| AnubisCipher.SetupEncKeys | Sources/SQLCipher/libtomcrypt/ciphers/anubis.c:913-989 | roundKeyEnc is the schedule of the key, for key lengths 16, 20, ..., 40 |
| AnubisCipher.RoundKeysOfKey | Sources/SQLCipher/libtomcrypt/ciphers/anubis.c:913-989 | Round key r is selected from the key state after r steps, and the first state holds the bytes of the user key in their order |
| AnubisCipher.InvertKeys | Sources/SQLCipher/libtomcrypt/ciphers/anubis.c:994-1007 | roundKeyDec is the diffused encryption schedule in reverse, its two ends undiffused |
| AnubisCipher.AnubisCrypt | Sources/SQLCipher/libtomcrypt/ciphers/anubis.c:1023-1114 | The table-driven rounds on bytes compute the specification for every schedule |
| AnubisCipher.BytesSeenFromOutside | Sources/SQLCipher/libtomcrypt/ciphers/anubis.c:1030-1114 | Row j of the state is loaded from the j-th four bytes of a block and stored there |
| AnubisCipher.DecryptUndoesEncrypt | Sources/SQLCipher/libtomcrypt/ciphers/anubis.c:1023-1114 | Both directions of the round trip on stored bytes |
| AnubisCipher.Key.Setup | Sources/SQLCipher/libtomcrypt/ciphers/anubis.c:881-1010 | Length and round checks; keyBits and R are already stored when the round count is refused |
| AnubisCipher.Key.EcbEncrypt | Sources/SQLCipher/libtomcrypt/ciphers/anubis.c:1123-1135 | R outside 12 .. 18 is refused; otherwise the block is encrypted in place if wanted |
| AnubisCipher.Key.EcbDecrypt | Sources/SQLCipher/libtomcrypt/ciphers/anubis.c:1144-1156 | The same for decryption |
| AnubisCipher.RoundTripInPlace | Sources/SQLCipher/libtomcrypt/ciphers/anubis.c:881-1156 | Setup, encryption and decryption in one buffer restore it, for every key of a valid length and both builds |
| Anubis.SameEnd | Sources/SQLCipher/libtomcrypt/ciphers/anubis.c:1023-1114 | Under two schedules that end alike, two blocks come to the same result if and only if they have the same state where the common end begins |
| Anubis.WrongRoundCount | Sources/SQLCipher/libtomcrypt/ciphers/anubis.c:896-911 | When a refused setup has changed R, a block encrypted before comes back if and only if the two runs agree at one state of that block: with fewer rounds, its state after as many rounds as are missing is the block with the next key diffused; with more, the run under whatever rows follow the keys leads back to the block with the first key |
| Anubis.LeftoverDecides | Sources/SQLCipher/libtomcrypt/ciphers/anubis.c:896-911 | Of two contents of the key memory that differ in the last row read only, every block is lost under at least one |
| AnubisCipher.WrongRoundsOnBytes | Sources/SQLCipher/libtomcrypt/ciphers/anubis.c:896-911 | The same condition on stored bytes |
| AnubisCipher.RefusedSetup | Sources/SQLCipher/libtomcrypt/ciphers/anubis.c:881-1156 | Setup with a key of any accepted length, encryption, any refused request, decryption: the status, the new R, and the condition for the block to come back |
| CamelliaTables.Rows | Sources/SQLCipher/libtomcrypt/ciphers/camellia.c:26-164 | SP0222, SP3033 and SP4404 repeat the S-box of SP1110 rotated as section 2.4 of RFC 3713 defines s2, s3 and s4 |
| Camellia.PackedF | Sources/SQLCipher/libtomcrypt/ciphers/camellia.c:175-188 | The packed computation with shared terms equals the byte-level F of section 2.4.1 of RFC 3713 |
| Camellia.FLInverts | Sources/SQLCipher/libtomcrypt/ciphers/camellia.c:450-462 | FL and FL^-1 are inverse to each other on both sides |
| CamelliaKeys.RotateBits | Sources/SQLCipher/libtomcrypt/ciphers/camellia.c:190-200 | Bit i of the rotated number is bit i + n of the number, cyclically |
| CamelliaKeys.Rot128 | Sources/SQLCipher/libtomcrypt/ciphers/camellia.c:190-200 | For every count 0 .. 127 the byte-wise loop is the 128-bit left rotation |
| CamelliaCipher.MixScratch | Sources/SQLCipher/libtomcrypt/ciphers/camellia.c:251-255 | Two rounds on the scratch area |
| CamelliaCipher.LoadKey | Sources/SQLCipher/libtomcrypt/ciphers/camellia.c:223-249 | KL and KR of the user key for all three key lengths, and their sum in the scratch area |
| CamelliaCipher.DeriveA | Sources/SQLCipher/libtomcrypt/ciphers/camellia.c:251-270 | kA is the KA of section 2.2 of RFC 3713 |
| CamelliaCipher.DeriveB | Sources/SQLCipher/libtomcrypt/ciphers/camellia.c:337-344 | kB is the KB of section 2.2 of RFC 3713 |
| CamelliaCipher.Schedule128 | Sources/SQLCipher/libtomcrypt/ciphers/camellia.c:272-335 | All 26 subkeys of a 128-bit key, though the scratch area is reused for every rotation |
| CamelliaCipher.Schedule256 | Sources/SQLCipher/libtomcrypt/ciphers/camellia.c:336-428 | All 34 subkeys of a longer key |
| CamelliaKeys.Subkeys256TurnBack | Sources/SQLCipher/libtomcrypt/ciphers/camellia.c:336-428 | Turned back by the counts of section 2.2 of RFC 3713, the subkeys of a longer key are its key variables |
| CamelliaKeys.SecondHalf | Sources/SQLCipher/libtomcrypt/ciphers/camellia.c:223-249 | KR is zero, the last eight key bytes with their complement, or the last sixteen key bytes |
| CamelliaKeys.DerivationUnwinds | Sources/SQLCipher/libtomcrypt/ciphers/camellia.c:251-344 | Taking the derivation rounds off KA and KB under the constants of section 2.2 of RFC 3713 leads back to KL and KR |
| CamelliaVector.SubkeysAre | Sources/SQLCipher/libtomcrypt/ciphers/camellia.c:632-639 | All 26 subkeys of the first test key |
| CamelliaVector.KnownAnswer | Sources/SQLCipher/libtomcrypt/ciphers/camellia.c:632-639 | The first test vector, byte for byte, whatever the memory behind its subkeys holds |
| Camellia.DecryptInverse | Sources/SQLCipher/libtomcrypt/ciphers/camellia.c:433-620 | For 18 and 24 rounds, decryption with its interleaved FL layers undoes encryption and the other way round |
| Camellia.WrongRoundCount | Sources/SQLCipher/libtomcrypt/ciphers/camellia.c:216-221 | For 18 or 24 rounds encrypted and 18 or 24 decrypted, in either order, a block comes back if and only if the counts are the same or the fourth group of rounds changes nothing in the state of that block after the third |
| Camellia.SomeGroupMoves | Sources/SQLCipher/libtomcrypt/ciphers/camellia.c:216-221 | Of any two sets of subkeys that differ in one bit of the last round key, the fourth group changes something under at least one |
| Camellia.SomeBlockIsLost | Sources/SQLCipher/libtomcrypt/ciphers/camellia.c:216-221 | So when the round count changes, at least one of the two loses a block |
| CamelliaCipher.WrongRoundsOnBytes | Sources/SQLCipher/libtomcrypt/ciphers/camellia.c:216-221 | The same condition on stored bytes |
| CamelliaCipher.RefusedSetup | Sources/SQLCipher/libtomcrypt/ciphers/camellia.c:202-221 | Setup with a key of any accepted length, encryption, any refused request, decryption: the status, the new R, and the block comes back if and only if the request stands for the same number of rounds or the fourth group changes nothing in the state of the block |
| CamelliaCipher.DecryptUndoesEncrypt | Sources/SQLCipher/libtomcrypt/ciphers/camellia.c:433-620 | Both directions on stored bytes |
| CamelliaCipher.Key.Setup | Sources/SQLCipher/libtomcrypt/ciphers/camellia.c:202-431 | Error cases, exactly the subkeys of section 2.2 of RFC 3713, and a 16-byte key leaves the further words as they were; R is already stored when the round count is refused |
| CamelliaCipher.Key.EcbEncrypt | Sources/SQLCipher/libtomcrypt/ciphers/camellia.c:433-525 | The unrolled encryption computes the specification |
| CamelliaCipher.Key.EcbDecrypt | Sources/SQLCipher/libtomcrypt/ciphers/camellia.c:527-620 | The unrolled decryption computes the specification |
| CamelliaCipher.RoundTripInPlace | Sources/SQLCipher/libtomcrypt/ciphers/camellia.c:202-620 | Setup, encryption and decryption in one buffer restore it |
| DesPermutation.DeltaInvolutive | Sources/SQLCipher/libtomcrypt/ciphers/des.c:1404-1418 | A delta swap under a mask that its shift keeps is an involution |
| DesPermutation.DeltaIPInverts | Sources/SQLCipher/libtomcrypt/ciphers/des.c:1403-1425 | The delta-swap IP can be undone, on either side |
| DesPermutation.DeltaFPIsInverse | Sources/SQLCipher/libtomcrypt/ciphers/des.c:1466-1485 | The delta-swap FP between exchanged halves is the inverse of IP |
| DesPermutation.DeltaIPIsStandard | Sources/SQLCipher/libtomcrypt/ciphers/des.c:1403-1425 | Every bit goes where the standard's IP table says, both halves left rotated by one |
| DesPermutation.TableIPAgrees | Sources/SQLCipher/libtomcrypt/ciphers/des.c:1426-1440 | Table-driven and delta-swap IP agree on every block |
| DesPermutation.TableFPAgrees | Sources/SQLCipher/libtomcrypt/ciphers/des.c:1486-1502 | Table-driven and delta-swap FP agree on every block |
| DesKeys.RegistersFollowTheStandard | Sources/SQLCipher/libtomcrypt/ciphers/des.c:67-72 | The total rotations give the standard's step-by-step rotations; after round 16 the registers are back where they began |
| DesKeys.RoundHalfBits | Sources/SQLCipher/libtomcrypt/ciphers/des.c:1304-1341 | Each bit of a round key is the user-key bit that PC1, the rotation and PC2 select, and no other bit is set |
| DesKeys.PermuteKey | Sources/SQLCipher/libtomcrypt/ciphers/des.c:1304-1308 | The loop fills pc1m |
| DesKeys.RotateRegisters | Sources/SQLCipher/libtomcrypt/ciphers/des.c:1318-1333 | The two loops rotate the 28-bit registers on their own |
| DesKeys.CollectPair | Sources/SQLCipher/libtomcrypt/ciphers/des.c:1317-1341 | The loop collects both halves of a round key into kn |
| DesKeys.CookedGroups | Sources/SQLCipher/libtomcrypt/ciphers/des.c:1369-1376 | Which six-bit group of the round key ends up facing which S-box |
| DesKeys.Cookey | Sources/SQLCipher/libtomcrypt/ciphers/des.c:1357-1381 | The pointer walk packs all sixteen pairs |
| DesKeys.Deskey | Sources/SQLCipher/libtomcrypt/ciphers/des.c:1298-1345 | The whole schedule for both directions |
| DesKeys.DecryptionScheduleIsReversed | Sources/SQLCipher/libtomcrypt/ciphers/des.c:1310-1316 | The DE1 schedule is the EN0 schedule with its 16 pairs reversed |
| DesCipher.BoxInputsAreStandard | Sources/SQLCipher/libtomcrypt/ciphers/des.c:1442-1463 | The packed round reads the standard's expanded half plus round key, bit by bit |
| DesCipher.MixIsStandard | Sources/SQLCipher/libtomcrypt/ciphers/des.c:1442-1463 | One line pair of a round adds the standard's round function of the unpacked round key |
| DesCipher.RoundsUndone | Sources/SQLCipher/libtomcrypt/ciphers/des.c:1442-1464 | The sixteen rounds under the reversed pairs step back through the rounds |
| DesCipher.TransformUndone | Sources/SQLCipher/libtomcrypt/ciphers/des.c:1391-1503 | desfunc under the reversed pairs undoes desfunc, for any 32 key words |
| DesCipher.InitialSmall | Sources/SQLCipher/libtomcrypt/ciphers/des.c:1404-1425 | The small-code statements compute the delta-swap IP |
| DesCipher.FinalSmall | Sources/SQLCipher/libtomcrypt/ciphers/des.c:1467-1485 | The small-code statements compute the delta-swap FP |
| DesCipher.Desfunc | Sources/SQLCipher/libtomcrypt/ciphers/des.c:1391-1503 | The block routine in both builds |
| DesCipher.CipherInverts | Sources/SQLCipher/libtomcrypt/ciphers/des.c:1521-1622 | For every key, each direction of DES undoes the other |
| DesCipher.Decrypt3Inverts | Sources/SQLCipher/libtomcrypt/ciphers/des.c:1548-1669 | Triple DES round trips for 16- and 24-byte keys |
| DesCipher.TwoKeysAreThree | Sources/SQLCipher/libtomcrypt/ciphers/des.c:1561-1577 | A two-key setup equals the three-key setup with the first key repeated |
| DesCipher.EqualKeysCollapse | Sources/SQLCipher/libtomcrypt/ciphers/des.c:1548-1669 | With equal first two or last two keys triple DES is single DES under the remaining key |
| DesCipher.ThreeKeysInOrder | Sources/SQLCipher/libtomcrypt/ciphers/des.c:1548-1669 | Encryption is by the first eight key bytes, decryption by the next, encryption by the last: taking single DES off again in this order leaves the block, and the same the other way round |
| DesCipher.TwoKeysInOrder | Sources/SQLCipher/libtomcrypt/ciphers/des.c:1561-1577 | With two parts the first serves again at the end |
| DesStandard.BoxIsSpread | Sources/SQLCipher/libtomcrypt/ciphers/des.c:82-240 | SP1 .. SP8 are the standard's S-boxes followed by its permutation P, rotated left by one |
| DesStandard.SumIsF | Sources/SQLCipher/libtomcrypt/ciphers/des.c:1442-1463 | The sum of the eight look-ups is the standard's function of the half and the round key, rotated left by one |
| DesStandard.FirstChoice | Sources/SQLCipher/libtomcrypt/ciphers/des.c:60-66 | pc1 is the standard's first permuted choice, its bits counted from 0 instead of 1 |
| DesStandard.SecondChoice | Sources/SQLCipher/libtomcrypt/ciphers/des.c:74-80 | pc2 is the standard's second permuted choice |
| DesStandard.KeyAgrees | Sources/SQLCipher/libtomcrypt/ciphers/des.c:1298-1345 | The round keys are those that the standard's registers give when they are shifted before every round, and each bit is traced back to the user key |
| DesStandard.RoundsAreStandard | Sources/SQLCipher/libtomcrypt/ciphers/des.c:1442-1464 | After every round the packed halves are the standard's, rotated, and in each other's place after an odd number of rounds |
| DesStandard.IPIsBijective | Sources/SQLCipher/libtomcrypt/ciphers/des.c:1403-1425 | A block has one initial permutation as the standard's table defines it and is that of one block; des.c's two permutations lead there and back |
| DesStandard.CipherIsStandard | Sources/SQLCipher/libtomcrypt/ciphers/des.c:1391-1503 | Encryption by desfunc under the keys of deskey is that of the standard: initial permutation, sixteen rounds under the standard's round keys, exchanged halves, inverse permutation |
| DesStandard.DecryptionIsStandard | Sources/SQLCipher/libtomcrypt/ciphers/des.c:1391-1503 | Decryption gives the block that the standard encrypts to the given one |
| DesKeyed.Key.Setup | Sources/SQLCipher/libtomcrypt/ciphers/des.c:1521-1538 | Error cases in their order, and both schedules of the key |
| DesKeyed.Key3.Setup | Sources/SQLCipher/libtomcrypt/ciphers/des.c:1548-1580 | Error cases, and the six schedules of a two- or three-part key |
| DesKeyed.Key.EcbEncrypt | Sources/SQLCipher/libtomcrypt/ciphers/des.c:1589-1601 | Single DES into ct, which may be pt, in both builds |
| DesKeyed.Key.EcbDecrypt | Sources/SQLCipher/libtomcrypt/ciphers/des.c:1610-1622 | Single DES decryption into pt |
| DesKeyed.Key3.EcbEncrypt | Sources/SQLCipher/libtomcrypt/ciphers/des.c:1631-1646 | Triple DES into ct |
| DesKeyed.Key3.EcbDecrypt | Sources/SQLCipher/libtomcrypt/ciphers/des.c:1655-1669 | Triple DES decryption into pt |
| DesKeyed.CipherBytesInvert | Sources/SQLCipher/libtomcrypt/ciphers/des.c:1589-1622 | Single DES round trips on stored bytes |
| DesKeyed.Decrypt3UndoesEncrypt3 | Sources/SQLCipher/libtomcrypt/ciphers/des.c:1631-1669 | Triple DES round trips on stored bytes |
| DesKeyed.ThreeKeysOnBytes | Sources/SQLCipher/libtomcrypt/ciphers/des.c:1631-1669 | The order of the three key parts, on stored bytes |
| DesKeyed.TwoKeysOnBytes | Sources/SQLCipher/libtomcrypt/ciphers/des.c:1561-1669 | The order of two key parts, on stored bytes |
| DesKeyed.RoundTripInPlace | Sources/SQLCipher/libtomcrypt/ciphers/des.c:1521-1622 | Setup, encryption and decryption in one buffer restore it |
| DesKeyed.RoundTrip3InPlace | Sources/SQLCipher/libtomcrypt/ciphers/des.c:1548-1669 | The same for triple DES with both key lengths |
| Feistel.UnrunUndoesRun | Sources/SQLCipher/libtomcrypt/ciphers/blowfish.c:298-329 | A chain of XOR steps with arbitrary functions, sides and length is undone by the steps in reverse order, and undoes them |
| Feistel.MirrorUndoesRun | Sources/SQLCipher/libtomcrypt/ciphers/kseed.c:233-242 | A chain that exchanges its halves at the end is undone by itself under the mirrored schedule |
| Feistel.UnrunUndoesRunOnBytes | Sources/SQLCipher/libtomcrypt/ciphers/kasumi.c:133-185 | The first theorem on stored blocks |
| KasumiTables.S7Bijective | Sources/SQLCipher/libtomcrypt/ciphers/kasumi.c:34-42 | S7 is a permutation |
| KasumiTables.S9Bijective | Sources/SQLCipher/libtomcrypt/ciphers/kasumi.c:43-75 | S9 is a permutation |
| KasumiBoxes.S7IsCubic | Sources/SQLCipher/libtomcrypt/ciphers/kasumi.c:34-42 | S7 is seven cubic polynomials of its input bits |
| KasumiBoxes.S9IsQuadratic | Sources/SQLCipher/libtomcrypt/ciphers/kasumi.c:43-75 | S9 is nine quadratic polynomials of its input bits |
| Kasumi.FI | Sources/SQLCipher/libtomcrypt/ciphers/kasumi.c:77-90 | For 16-bit operands every table index is in range and the result stays below 2^16 |
| Kasumi.ComputeFI | Sources/SQLCipher/libtomcrypt/ciphers/kasumi.c:80-90 | The reassignments of nine and seven compute FI |
| Kasumi.FIBijective | Sources/SQLCipher/libtomcrypt/ciphers/kasumi.c:31-91 | FI is a bijection of the 16-bit values for every subkey |
| Kasumi.FOBijective | Sources/SQLCipher/libtomcrypt/ciphers/kasumi.c:93-115 | FO is a bijection of the 32-bit words for all subkeys |
| Kasumi.FLBijective | Sources/SQLCipher/libtomcrypt/ciphers/kasumi.c:117-131 | FL is a bijection of the 32-bit words for all subkeys |
| Kasumi.Rol16Inverts | Sources/SQLCipher/libtomcrypt/ciphers/kasumi.c:16-16 | On values below 2^16 the macro ROL16 is a rotation |
| Kasumi.ComputeFO | Sources/SQLCipher/libtomcrypt/ciphers/kasumi.c:93-115 | The statements of FO compute it |
| Kasumi.ComputeFL | Sources/SQLCipher/libtomcrypt/ciphers/kasumi.c:117-131 | The statements of FL compute it |
| KasumiCipher.RoundKeyOf | Sources/SQLCipher/libtomcrypt/ciphers/kasumi.c:204-224 | All eight subkeys of every round stay below 2^16 |
| KasumiCipher.RoundKeyInjective | Sources/SQLCipher/libtomcrypt/ciphers/kasumi.c:204-224 | The eight subkeys of any single round determine the whole user key |
| KasumiVector.KnownAnswer | Sources/SQLCipher/libtomcrypt/ciphers/kasumi.c:253-257 | The first test vector, byte for byte |
| KasumiCipher.DecryptUndoesEncrypt | Sources/SQLCipher/libtomcrypt/ciphers/kasumi.c:133-185 | Both round trips on stored bytes |
| KasumiCipher.Key.Setup | Sources/SQLCipher/libtomcrypt/ciphers/kasumi.c:187-227 | Error cases in their order and all 64 subkeys |
| KasumiCipher.Key.EcbEncrypt | Sources/SQLCipher/libtomcrypt/ciphers/kasumi.c:133-158 | The two-rounds-a-turn loop runs the eight-step chain |
| KasumiCipher.Key.EcbDecrypt | Sources/SQLCipher/libtomcrypt/ciphers/kasumi.c:160-185 | The loop runs the chain backwards |
| KasumiCipher.RoundTripInPlace | Sources/SQLCipher/libtomcrypt/ciphers/kasumi.c:133-227 | Setup, encryption and decryption in one buffer restore it |
| Blowfish.DecipherInverts | Sources/SQLCipher/libtomcrypt/ciphers/blowfish.c:298-329 | For every state, deciphering undoes enciphering and the other way round |
| Blowfish.RoundSeenFromOutside | Sources/SQLCipher/libtomcrypt/ciphers/blowfish.c:298-329 | What round r adds into either half: the r-th word of K, and the table entries for the four bytes of the changed half put together by addition, exclusive or and addition |
| Blowfish.OutputSeenFromOutside | Sources/SQLCipher/libtomcrypt/ciphers/blowfish.c:298-329 | Which words of K are added behind the rounds, and the exchange of the halves |
| Blowfish.KeyedWord | Sources/SQLCipher/libtomcrypt/ciphers/blowfish.c:380-385 | Keying adds the repeated key into K byte by byte and leaves S alone |
| Blowfish.ExpandedPair | Sources/SQLCipher/libtomcrypt/ciphers/blowfish.c:388-415 | Every pair of the expanded state is the pair before it, with the next data bytes added, enciphered under the state as it was then |
| Blowfish.StreamWordIs | Sources/SQLCipher/libtomcrypt/ciphers/blowfish.c:342-357 | The t-th word of the repeated data, byte by byte |
| Blowfish.KeyBytesUsed | Sources/SQLCipher/libtomcrypt/ciphers/blowfish.c:380-385 | Keys that agree on the first 72 bytes of their repetition expand any state alike |
| Blowfish.KeyedStateDetermines | Sources/SQLCipher/libtomcrypt/ciphers/blowfish.c:380-385 | ... and those 72 bytes can be read back: the keyed states agree if and only if they do |
| Blowfish.RepeatedKey | Sources/SQLCipher/libtomcrypt/ciphers/blowfish.c:369-422 | A key and any repetition of it give the same state |
| Blowfish.LongKey | Sources/SQLCipher/libtomcrypt/ciphers/blowfish.c:380-385 | Key bytes past the first 72 are ignored |
| Blowfish.RepeatedData | Sources/SQLCipher/libtomcrypt/ciphers/blowfish.c:388-415 | Data and any repetition of it give the same state |
| Blowfish.DataBytesUsed | Sources/SQLCipher/libtomcrypt/ciphers/blowfish.c:388-415 | Only the first 4168 bytes of the repeated data matter |
| Blowfish.ZeroData | Sources/SQLCipher/libtomcrypt/ciphers/blowfish.c:388-415 | All-zero data of any positive length acts like NULL data |
| BlowfishCipher.Stream2Word | Sources/SQLCipher/libtomcrypt/ciphers/blowfish.c:342-357 | The wrapping cursor reads the next word of the repeated bytes |
| BlowfishCipher.Key.SEncipher | Sources/SQLCipher/libtomcrypt/ciphers/blowfish.c:298-329 | The round loop computes the chain with its last keying and exchanged halves |
| BlowfishCipher.Key.ExpandWith | Sources/SQLCipher/libtomcrypt/ciphers/blowfish.c:369-422 | The three loops overwrite K and S with the running block |
| BlowfishCipher.Key.SetupWithData | Sources/SQLCipher/libtomcrypt/ciphers/blowfish.c:458-465 | Setup from the initial tables |
| BlowfishCipher.Key.Setup | Sources/SQLCipher/libtomcrypt/ciphers/blowfish.c:432-445 | Key length 8 .. 56 checked before the round count |
| BlowfishCipher.Key.EcbEncrypt | Sources/SQLCipher/libtomcrypt/ciphers/blowfish.c:477-497 | Encryption on bytes |
| BlowfishCipher.Key.EcbDecrypt | Sources/SQLCipher/libtomcrypt/ciphers/blowfish.c:518-558 | The decryption loop runs the chain backwards |
| BlowfishCipher.RoundTripInPlace | Sources/SQLCipher/libtomcrypt/ciphers/blowfish.c:432-558 | Setup, encryption and decryption in one buffer restore it, whatever the initial tables |
| Seed.TurnRotates | Sources/SQLCipher/libtomcrypt/ciphers/kseed.c:216-224 | The temporaries turn k1,k2 right and k3,k4 left by a byte as 64-bit registers |
| Seed.FullTurn | Sources/SQLCipher/libtomcrypt/ciphers/kseed.c:213-228 | After sixteen rounds the registers hold the user key again |
| Seed.KCRotates | Sources/SQLCipher/libtomcrypt/ciphers/kseed.c:167-176 | Each round constant is the previous one rotated left by one |
| Seed.SchedulesMirror | Sources/SQLCipher/libtomcrypt/ciphers/kseed.c:225-227 | dK makes the chain that replays the rounds backwards |
| Seed.GEntries | Sources/SQLCipher/libtomcrypt/ciphers/kseed.c:178-178 | G by the places of its four table entries |
| Seed.RoundKeySeenFromOutside | Sources/SQLCipher/libtomcrypt/ciphers/kseed.c:213-224 | Round key i comes from the key halves turned by so many bytes, and from the i-th constant |
| Seed.ScheduleOrder | Sources/SQLCipher/libtomcrypt/ciphers/kseed.c:225-227 | Encryption takes the round keys in order, decryption the other way round |
| Seed.RoundSeenFromOutside | Sources/SQLCipher/libtomcrypt/ciphers/kseed.c:180-184 | What a round adds into the one half, from the other half and two key words |
| Seed.OutputSeenFromOutside | Sources/SQLCipher/libtomcrypt/ciphers/kseed.c:233-286 | The rounds start from the block as stored and their halves are stored in exchanged places |
| Seed.TransformInverts | Sources/SQLCipher/libtomcrypt/ciphers/kseed.c:233-286 | For every key and all S-boxes, decryption undoes encryption and the other way round |
| Seed.Rounds | Sources/SQLCipher/libtomcrypt/ciphers/kseed.c:233-242 | The two-rounds-a-turn loop on P runs the chain |
| Seed.MixInto | Sources/SQLCipher/libtomcrypt/ciphers/kseed.c:180-184 | The macro F |
| Seed.TransformBytesInvert | Sources/SQLCipher/libtomcrypt/ciphers/kseed.c:251-286 | The same on stored bytes |
| Seed.Key.Setup | Sources/SQLCipher/libtomcrypt/ciphers/kseed.c:194-231 | Error cases in their order, and both schedules of the key |
| Seed.Key.EcbEncrypt | Sources/SQLCipher/libtomcrypt/ciphers/kseed.c:251-264 | Encryption on bytes |
| Seed.Key.EcbDecrypt | Sources/SQLCipher/libtomcrypt/ciphers/kseed.c:273-286 | Decryption on bytes |
| Seed.RoundTripInPlace | Sources/SQLCipher/libtomcrypt/ciphers/kseed.c:194-286 | Setup, encryption and decryption in one buffer restore it |
| Cast5.DecryptUndoesEncrypt | Sources/SQLCipher/libtomcrypt/ciphers/cast5.c:536-610 | With 12 and 16 rounds, each direction undoes the other on stored bytes, for the subkeys of every key and for any others |
| Cast5.RoundsAsRequested | Sources/SQLCipher/libtomcrypt/ciphers/cast5.c:413-423 | An accepted request for 16 rounds runs 16 if and only if the key has more than ten bytes; otherwise it silently runs 12 |
| Cast5.SubkeysUsed | Sources/SQLCipher/libtomcrypt/ciphers/cast5.c:536-558 | A short key uses only twelve of the sixteen masking and rotation keys, and of a rotation key only the low five bits are used |
| Cast5.ZeroBytesAppended | Sources/SQLCipher/libtomcrypt/ciphers/cast5.c:425-427 | A key with zero bytes appended encrypts alike as long as both lengths lie on one side of ten bytes |
| Cast5Keys.GBIsByte | Sources/SQLCipher/libtomcrypt/ciphers/cast5.c:386-391 | On a register stored last word first, GB reads byte i of the sixteen |
| Cast5Keys.KeyWordEntries | Sources/SQLCipher/libtomcrypt/ciphers/cast5.c:435-470 | A subkey by the places of its five table entries |
| Cast5Keys.ZSeenFromOutside | Sources/SQLCipher/libtomcrypt/ciphers/cast5.c:435-438 | What is added into each four bytes on the way from x to z, by the formulas of section 2.4 of RFC 2144 |
| Cast5Keys.XSeenFromOutside | Sources/SQLCipher/libtomcrypt/ciphers/cast5.c:444-447 | ... and from z to the next x |
| Cast5Keys.SubkeysSeenFromOutside | Sources/SQLCipher/libtomcrypt/ciphers/cast5.c:434-471 | The sixteen subkeys of a turn from its four registers, by the formulas of the same section |
| Cast5Keys.TurnsInOrder | Sources/SQLCipher/libtomcrypt/ciphers/cast5.c:425-471 | A short key is one that ends in zeros, and the second turn starts from the register that the first one leaves |
| Cast5Keys.FillZ | Sources/SQLCipher/libtomcrypt/ciphers/cast5.c:435-438 | The statements on words compute z0 .. zF from x0 .. xF by the byte formulas of section 2.4 of RFC 2144 |
| Cast5Keys.FillX | Sources/SQLCipher/libtomcrypt/ciphers/cast5.c:444-447 | ... and the next x0 .. xF from z0 .. zF |
| Cast5Keys.FirstSubkeys | Sources/SQLCipher/libtomcrypt/ciphers/cast5.c:439-442 | The statements for the first four subkeys of a turn |
| Cast5Keys.SecondSubkeys | Sources/SQLCipher/libtomcrypt/ciphers/cast5.c:448-451 | The next four |
| Cast5Keys.ThirdSubkeys | Sources/SQLCipher/libtomcrypt/ciphers/cast5.c:458-461 | The next four |
| Cast5Keys.FourthSubkeys | Sources/SQLCipher/libtomcrypt/ciphers/cast5.c:467-470 | The last four |
| Cast5Keys.HalfNetwork | Sources/SQLCipher/libtomcrypt/ciphers/cast5.c:434-471 | One turn of the loop appends sixteen subkeys and leaves the register that the next turn starts from |
| Cast5Keys.Network | Sources/SQLCipher/libtomcrypt/ciphers/cast5.c:425-471 | From the zero-padded key to all 32 subkeys |
| Cast5.RoundFunctionReads | Sources/SQLCipher/libtomcrypt/ciphers/cast5.c:494-516 | Of their two keys, FI, FII and FIII depend on the whole masking key but only on the low five bits of the rotation key |
| Cast5.RoundSeenFromOutside | Sources/SQLCipher/libtomcrypt/ciphers/cast5.c:494-558 | What each round adds: three functions in turn, each with its own order of exclusive or, sum and difference |
| Cast5.RolByCount | Sources/SQLCipher/libtomcrypt/ciphers/cast5.c:494-516 | The rotation is by the low five bits of the rotation key |
| Cast5.OutputSeenFromOutside | Sources/SQLCipher/libtomcrypt/ciphers/cast5.c:536-558 | The rounds start from the block as stored, and their halves are stored in exchanged places |
| Cast5.Key.Setup | Sources/SQLCipher/libtomcrypt/ciphers/cast5.c:413-481 | The three checks in their order, and K1 .. K32 of the padded key as section 2.4 of RFC 2144 defines them |
| Cast5.Key.EcbEncrypt | Sources/SQLCipher/libtomcrypt/ciphers/cast5.c:536-558 | The straight-line rounds run the chain |
| Cast5.Key.EcbDecrypt | Sources/SQLCipher/libtomcrypt/ciphers/cast5.c:589-612 | The straight-line rounds run it backwards |
| Cast5.RoundTripInPlace | Sources/SQLCipher/libtomcrypt/ciphers/cast5.c:403-613 | Encryption and decryption in one buffer restore it for every accepted key length |
| SqlTemplate.QuoteLoop | Sources/SQLiteDB/Helpers.swift:50-61 | The loop doubles every mark and adds one at either end |
| SqlTemplate.QuoteReadsBack | Sources/SQLiteDB/Helpers.swift:50-61 | A quoted string reads back as itself and the reader stops at its closing mark |
| SqlTemplate.QuoteInjective | Sources/SQLiteDB/Helpers.swift:50-61 | Different strings have different quoted forms |
| SqlTemplate.JoinLoop | Sources/SQLiteDB/Helpers.swift:63-71 | The loop joins the templates and concatenates the bindings |
| SqlTemplate.JoinExcess | Sources/SQLiteDB/Helpers.swift:63-71 | Joining neither adds nor loses unfilled holes |
| SqlTemplate.IdentifierExcess | Sources/SQLiteDB/Typed/Expression.swift:42-44 | A quoted name has one unfilled hole for every question mark in it |
| SqlTemplate.FoldIsAsSQL | Sources/SQLiteDB/Typed/Expression.swift:82-94 | The fold over template characters computes the recursive substitution |
| SqlTemplate.RenderSucceeds | Sources/SQLiteDB/Typed/Expression.swift:82-94 | asSQL runs out of bindings exactly when there are more holes than bindings |
| SqlTemplate.RenderInterleaves | Sources/SQLiteDB/Typed/Expression.swift:82-94 | The k-th binding appears once, spelled out, at the k-th hole, and a question mark inside a bound string is never expanded |
| SqlLiterals.LiteralReadsBack | Sources/SQLiteDB/Helpers.swift:103-116 | The spelling of a bound value is read as that value: NULL, a quoted string with doubled marks, x'..' with two hex digits a byte, or a number's text, whatever follows |
| SqlLiterals.TranscodeInjective | Sources/SQLiteDB/Helpers.swift:103-116 | Values spelled alike are the same value |
| SqlLiterals.BindingsReadBack | Sources/SQLiteDB/Typed/Expression.swift:82-94 | The literals that stand in the print of an expression, at its holes and in order, are its bindings |
| SqlLiterals.TreeReadsBack | Sources/SQLiteDB/Typed/Operators.swift:49-55 | ... for whatever operators build |
| SqlTemplate.JoinPrints | Sources/SQLiteDB/Helpers.swift:63-71 | asSQL commutes with join |
| SqlTemplate.WrapPrints | Sources/SQLiteDB/Helpers.swift:93-99 | asSQL commutes with wrap |
| SqlTemplate.InfixPrints | Sources/SQLiteDB/Helpers.swift:73-83 | asSQL commutes with infix |
| SqlTemplate.QuestionMarkInName | Sources/SQLiteDB/Typed/Expression.swift:42-44 | A name with a question mark breaks the balance and asSQL fails |
| SqlFragment.CompileExcess | Sources/SQLiteDB/Helpers.swift:63-99 | Any tree of joins and wraps has the unfilled holes of its leaves |
| SqlFragment.CompileBindings | Sources/SQLiteDB/Helpers.swift:63-99 | Its bindings are those of its leaves from left to right |
| SqlFragment.CompilePrints | Sources/SQLiteDB/Helpers.swift:63-99 | Printing it is printing its leaves and putting the texts together |
| SqlHoles.QueryBalancedIffNamesPlain | Sources/SQLiteDB/Typed/Query.swift:859-872 | For balanced components a compiled query has a binding for each hole, and asSQL succeeds, if and only if no name it shows contains a question mark; nested WITH and UNION queries included |
| SqlHoles.QueryPrints | Sources/SQLiteDB/Typed/Query.swift:859-872 | Then printing the query is printing its parts |
| SqlHoles.SelectSound | Sources/SQLiteDB/Typed/Query.swift:508-516 | The SELECT clause |
| SqlHoles.JoinClauseSound | Sources/SQLiteDB/Typed/Query.swift:518-532 | The JOIN clauses |
| SqlHoles.GroupBySound | Sources/SQLiteDB/Typed/Query.swift:545-566 | The GROUP BY and HAVING clauses |
| SqlHoles.WithPartSound | Sources/SQLiteDB/Typed/Query+with.swift:64-88 | A common table expression |
| SqlHoles.SourceSound | Sources/SQLiteDB/Typed/Query.swift:829-857 | The table name with its alias and database |
| SqlText.TreesAreCalm | Sources/SQLiteDB/Helpers.swift:50-99 | What the readers below ask of columns, conditions and values holds of column names, bound values and everything that operators build: no word, comma or parenthesis of theirs ends a clause |
| SqlSelectReads.StatementReads | Sources/SQLiteDB/Typed/Query.swift:859-872 | A compiled query is read back from its text and bindings as itself: common table expressions, DISTINCT, columns, tables with alias and database, each join by the words of its kind, conditions, groups, united queries, order, limit and offset |
| SqlSelectReads.SelectReadsBack | Sources/SQLiteDB/Typed/Query.swift:859-872 | ... wherever it stands, inside a common table expression too |
| SqlSelectReads.CteReads | Sources/SQLiteDB/Typed/Query+with.swift:64-88 | A common table expression is read as its name, columns, hint and query |
| SqlSelectReads.AlikeSaySame | Sources/SQLiteDB/Typed/Query.swift:859-872 | Queries that compile alike say the same |
| SqlSelectReads.LastUnitedEndsAll | Sources/SQLiteDB/Typed/Query.swift:596-607 | The order and limit of a query united last are read as those of the whole |
| SqlStatement.InsertReadsBack | Sources/SQLiteDB/Typed/Query.swift:649-666 | A compiled insert is read as its conflict clause, table, columns and values; with a filter on the query it is no statement |
| SqlStatement.InsertManyReadsBack | Sources/SQLiteDB/Typed/Query.swift:668-691 | A multi-row insert is read as the first row's columns and the values of every row in that row's own order |
| SqlStatement.DefaultsReadBack | Sources/SQLiteDB/Typed/Query.swift:693-700 | An insert of default values, which a multi-row insert without rows becomes |
| SqlStatement.UpsertReadsBack | Sources/SQLiteDB/Typed/Query.swift:732-752 | An upsert is read as its row, conflict target and assignments; with nothing to assign it is no statement |
| SqlStatement.UpdateReadsBack | Sources/SQLiteDB/Typed/Query.swift:760-772 | An update is read as its assignments, filter, order and limit; with nothing to assign it is no statement |
| SqlStatement.DeleteReadsBack | Sources/SQLiteDB/Typed/Query.swift:776-786 | A delete is read as its filter, order and limit |
| SqlHoles.StatementsBalancedIffNamesPlain | Sources/SQLiteDB/Typed/Query.swift:649-786 | The same equivalence for insert, multi-row insert, upsert with given and with default assignments, update and delete statements, and then each prints part by part |
| SqlHoles.ExcludedSetsCover | Sources/SQLiteDB/Typed/Query.swift:722-726 | An upsert without assignments updates exactly the inserted columns that print differently from the conflict target; it has nothing to assign if and only if all print alike |
| SqlInsert.UpsertEndsIncomplete | Sources/SQLiteDB/Typed/Query.swift:722-752 | The text of an upsert without assignments ends in DO UPDATE SET with nothing behind it if and only if all its columns print like the conflict target |
| SqlInsert.UpsertOfTargetAlone | Sources/SQLiteDB/Typed/Query.swift:722-752 | The words of one such statement |
| SqlInsert.UpsertExcludedReads | Sources/SQLiteDB/Typed/Query.swift:722-752 | Read back, an upsert without assignments has its row, its target and the excluded values, and is no statement if and only if the query has a filter or all columns print like the target |
| SqlBindings.QueryBinds | Sources/SQLiteDB/Typed/Query.swift:859-872 | The bindings of a query are those handed in, in clause order, through nested queries |
| SqlBindings.InsertBinds | Sources/SQLiteDB/Typed/Query.swift:649-666 | An insert binds columns, then values in column order, then the filter |
| SqlBindings.InsertManyBinds | Sources/SQLiteDB/Typed/Query.swift:668-691 | A multi-row insert binds the first row's columns, then the values of every row in that row's own order |
| SqlInsert.RowsStoreAsSet | Sources/SQLiteDB/Typed/Query.swift:673-687 | Of any rows, of any lengths: the compiled statement, read back from its text, stores every value in its own setter's column if and only if every row lists the same columns in the same order as the first and the query has no filter; it cannot be read as an insert if and only if the first row is empty, a row is longer or shorter than the first, or there is a filter |
| SqlInsert.ReorderedRowSwaps | Sources/SQLiteDB/Typed/Query.swift:673-687 | The statement of two rows, the second with its two columns the other way round, has its values change places |
| SqlBindings.UpsertBinds | Sources/SQLiteDB/Typed/Query.swift:732-752 | An upsert binds columns, values, filter, conflict target and assignments |
| SqlBindings.UpdateBinds | Sources/SQLiteDB/Typed/Query.swift:760-772 | An update binds its assignments, then filter and order |
| SqlBindings.DeleteBinds | Sources/SQLiteDB/Typed/Query.swift:776-786 | A delete binds filter and order |
| SqlGrammar.OperatorsCompile | Sources/SQLiteDB/Typed/Operators.swift:49-55 | The infix operators and the wrapping prefix operators compile to the trees with parentheses around the operation, or around the operand |
| SqlGrammar.CompileText | Sources/SQLiteDB/Helpers.swift:73-99 | An expression tree compiles to its text with its values from left to right: the k-th hole is the k-th value |
| SqlGrammar.LexText | Sources/SQLiteDB/Helpers.swift:73-99 | The text of a tree splits into exactly its tokens, whatever its names contain |
| SqlReader.ReadingIsWellGrouped | Sources/SQLiteDB/Typed/Operators.swift:49-55 | Wherever its parentheses stand, a compiled expression is read as one tree at most: the one written with the same tokens and values whose operations all respect the precedences |
| SqlReader.CompiledReads | Sources/SQLiteDB/Typed/Operators.swift:49-55 | The exact reading of everything that infix and prefix operators and and(...) and or(...) build, with every value at its own leaf |
| SqlReader.CompiledReadsAsBuilt | Sources/SQLiteDB/Typed/Operators.swift:49-55 | Any tree, operations without parentheses included, is read as it was built if and only if it respects the precedences |
| SqlReader.OperatorsReadAsBuilt | Sources/SQLiteDB/Typed/Operators.swift:49-55 | For what these build: if and only if no NOT stands directly left of a tighter operator or directly right of IS |
| SqlReader.NaryCompiles | Sources/SQLiteDB/Typed/Operators.swift:606-642 | and(...) and or(...) of any positive number of terms compile to the tree grouped from the left in one pair of parentheses |
| SqlReader.NaryOfNothing | Sources/SQLiteDB/Typed/Operators.swift:606-642 | Without terms they compile to an empty pair of parentheses, which cannot be read |
| SqlReader.CompileInjective | Sources/SQLiteDB/Typed/Operators.swift:49-55 | Different trees that respect the precedences never compile to the same expression |
| SqlParens.TextFixesParens | Sources/SQLiteDB/Helpers.swift:73-83 | The tokens of given operations fix where the parentheses stand |
| SqlParens.OperationsAsBuilt | Sources/SQLiteDB/Typed/Operators.swift:49-55 | So the operations read, parentheses aside, are those built if and only if the tree respects the precedences |
| SqlReader.NotMisread | Sources/SQLiteDB/Typed/Operators.swift:668-674 | !a < b is read as !(a < b), and a === !b as a !== b |
| SqlReader.ThreeOperands | Sources/SQLiteDB/Typed/Operators.swift:49-55 | Of two operators between three values without parentheses, the one higher in SQLite's published table takes its operands first, and of two on one line the left one; told by what the operators print |
| SqlRanges.HalfOpenPrints | Sources/SQLiteDB/Typed/Operators.swift:570-573 | A half-open range is balanced and both copies of its operand take their own bindings |
| SqlRanges.ClosedPrints | Sources/SQLiteDB/Typed/Operators.swift:562-564 | The same for BETWEEN |
| SqlRanges.OneSidedPrints | Sources/SQLiteDB/Typed/Operators.swift:580-602 | The same for the ranges with one bound |
| SqlRanges.RangeCompiles | Sources/SQLiteDB/Typed/Operators.swift:562-602 | Each of the five ranges compiles to the tree of its comparisons, or of BETWEEN, without parentheses |
| SqlRanges.RangeReads | Sources/SQLiteDB/Typed/Operators.swift:562-602 | A range that stands alone is read as built if and only if its operand is, and binds tightly enough |
| SqlRanges.RangeReadsAlone | Sources/SQLiteDB/Typed/Operators.swift:562-602 | For operands built by infix and prefix operators: if and only if the operand reads as built and is no NOT |
| SqlRanges.RangeOnTheLeft | Sources/SQLiteDB/Typed/Operators.swift:562-602 | As left operand a half-open range is read as built if and only if the operator is AND or OR, a closed one up to the equalities, a one-sided one up to the comparisons |
| SqlRanges.RangeOnTheRight | Sources/SQLiteDB/Typed/Operators.swift:562-602 | As right operand a half-open range is read as built if and only if the operator is OR, a closed one with AND or OR, a one-sided one up to the equalities |
| SqlRanges.RangeUnderPrefix | Sources/SQLiteDB/Typed/Operators.swift:562-602 | Under a prefix operator a range reads as it does alone |
| SqlRanges.RangeRegrouped | Sources/SQLiteDB/Typed/Operators.swift:570-573 | To the right of AND a half-open range is only regrouped |
| SqlRanges.RangeFallsApart | Sources/SQLiteDB/Typed/Operators.swift:570-573 | To the left of any operator but AND and OR, only its upper comparison or only its upper bound takes part in the operation |
| SqlJoin.FoldingFilters | Sources/SQLiteDB/Typed/Query.swift:293-298 | ON (condition AND filter) returns the rows of joining the filtered tables, in order, for chains of cross, inner and left outer joins of any length in three-valued logic, when every filter names only columns of its own table that no other table of the chain answers to |
| SqlJoin.FoldingIsFaithful | Sources/SQLiteDB/Typed/Query.swift:293-298 | Of a chain that is valid as written, the folded form returns the same rows if and only if each filter mentions only columns of its own table, under names that no other table of the chain answers to, joined before or after, up to the case of letters; otherwise it fails |
| SqlJoin.AndIsMinimum | Sources/SQLiteDB/Typed/Operators.swift:612-614 | AND is the smaller of its operands, false below unknown below true |
| SqlJoin.OneRowJoined | Sources/SQLiteDB/Typed/Query.swift:1245-1254 | An outer join pairs a row with the rows on which the condition holds, in their order, or with a row of nulls if there is none; any other join pairs it with all rows |
| SqlJoin.ResolvesOnlyLocally | Sources/SQLiteDB/Typed/Query.swift:518-532 | A condition that resolves on a table alone and among all tables of the list refers to that table only |
| SqlJoin.ExtendFiltered | Sources/SQLiteDB/Typed/Query.swift:293-298 | Folding for one join: the filter becomes part of the match of an outer join and part of WHERE for any other |
| SqlJoin.WhereExtend | Sources/SQLiteDB/Typed/Query.swift:534-543 | Conditions on earlier tables may be applied in front of a join, outer joins included, or behind it in WHERE |
| SqlJoin.ProductFiltered | Sources/SQLiteDB/Typed/Query.swift:293-298 | Over a whole chain: joining the filtered tables gives the rows that WHERE keeps by the filters moved there |
| SqlJoin.LocalEval | Sources/SQLiteDB/Typed/Query.swift:293-298 | A condition on one table means the same on a joined row as on that table alone |
| SqlJoinQuery.JoinChainMeansPrefiltered | Sources/SQLiteDB/Typed/Query.swift:293-298 | The statement that repeated join calls compile, its joins read by their words, its tables by their quoted names and its conditions from their text, returns over any database the rows of joining the filtered tables if and only if the filters are local, and fails otherwise; its own filter included |
| SqlJoinQuery.RowsAreFolded | Sources/SQLiteDB/Typed/Query.swift:293-298 | It selects what the folded chain does |
| SqlJoinQuery.AttachedMeans | Sources/SQLiteDB/Typed/Query.swift:293-298 | A filter without parentheses, such as a half-open range, is regrouped behind AND without a change of meaning |
| SqlJoinQuery.BuildJoins | Sources/SQLiteDB/Typed/Query.swift:293-298 | Repeated join calls append the joins in order with the folded conditions |
| SqlJoinQuery.FilterTwice | Sources/SQLiteDB/Typed/Query.swift:328-332 | Filtering twice is filtering by the conjunction |
| SqlJoinQuery.FilterCompiles | Sources/SQLiteDB/Typed/Query.swift:328-332 | ... which is what the second filter call compiles |
| SqlJoinQuery.WhereOnFirstTable | Sources/SQLiteDB/Typed/Query.swift:534-543 | A filter on the first table may run behind all joins or in front of them |
| SqlJoinQuery.SharedNameFails | Sources/SQLiteDB/Typed/Query.swift:293-298 | Wherever a filter mentions a bare name that another table of the chain has too, joined before or behind, folding breaks a valid chain |
| SqlJoinQuery.SharedWithFirst | Sources/SQLiteDB/Typed/Query.swift:293-298 | An instance: the first table has the column too |
| SqlJoinQuery.SharedWithLater | Sources/SQLiteDB/Typed/Query.swift:293-298 | An instance: a table joined behind has it, and the chain without that table is still faithful |
| SqlJoinQuery.SharedUpToCase | Sources/SQLiteDB/Typed/Query.swift:293-298 | An instance: the names differ in the case of their letters |
| SqlJoinClauses.JoinedClausesAreLost | Sources/SQLiteDB/Typed/Query.swift:518-532 | Of a joined query only its name and filter reach the text: DISTINCT, limit, order, groups, joins and unions are lost |
| SqlJoinClauses.JoinsTellApart | Sources/SQLiteDB/Typed/Query.swift:518-532 | Two tables under one name give the same rows in every query that joins them if and only if they have the same rows in the same order |
| SqlJoinClauses.LimitChangesRows | Sources/SQLiteDB/Typed/Query.swift:518-532 | Joining the whole table gives the rows of joining the limited one in every query if and only if limit and offset leave the table whole |
| SqlJoinClauses.DistinctChangesRows | Sources/SQLiteDB/Typed/Query.swift:518-532 | The same for a lost DISTINCT: if and only if no row occurs twice |
| SqlJoinClauses.UnionChangesRows | Sources/SQLiteDB/Typed/Query.swift:518-532 | The same for a lost UNION ALL: if and only if the other queries have no rows |
| SqlJoinClauses.LimitIsLost | Sources/SQLiteDB/Typed/Query.swift:518-532 | An instance: a limit of one on a table of two rows, both of which are joined |
| SqlJoinClauses.DistinctIsLost | Sources/SQLiteDB/Typed/Query.swift:518-532 | An instance: DISTINCT on a table with a row twice |
| Words.LoadStore32 | Sources/SQLCipher/libtomcrypt/ciphers/multi2.c:151-155 | Big-endian store and load are inverse |
| Words.StoreLoad32 | Sources/SQLCipher/libtomcrypt/ciphers/multi2.c:151-155 | ... on both sides |

## Left out

- SQLite and SQLCipher themselves, and what only forwards to `sqlite3_*`: of the library only its operator precedence and the resolution of names in a FROM list are modelled.
- Names in ON that mean an implicit rowid or an alias of a result column, and NATURAL and USING joins, which the compiler never writes: left out of the resolution of names.
- The rows of a joined query with groups, an order, joins or UNION without ALL: that these clauses are lost from the text is proved, what that does to the rows is not.
- SchemaChanger, transactions and savepoints: they rest on SQLite's own behaviour.
- The Codable bridge, Date/URL/UUID/Data conversions and schema parsing: Foundation's behaviour dominates.
- Self-tests but for the three vectors of `Multi2Vector`, `KasumiVector` and `CamelliaVector`, `*_keysize`, `*_done` and descriptor tables: one branch or constant each.
- `burn_stack`, `zeromem`, the `LTC_CLEAN_STACK` wrappers and `LTC_ARGCHK`: memory hygiene.
- Multi2 with a negative number of rounds: outside what setup promises.
- Blowfish's initial tables ORIG_P and ORIG_S: arbitrary, since no result depends on them.
- SqlGrammar.CompileText: covers names, values, infix, prefix and range operators; function calls, LIKE, CAST and COLLATE are left out.
- SqlSelectReads.StatementReads: asks of united queries that they have no WITH, order or limit of their own, since SQL has no place for these inside a compound; an order or limit of the last one is `LastUnitedEndsAll`.
- INSERT from a query, and EXISTS: one join or wrap around a compiled query each.
- SqlQuery: columns, conditions and values are taken as compiled expressions, so aliasing inside them is not captured.
- FTS and RTree builders, window and date functions: thin wrappers around one join or wrap each.
- Timing, side channels and cryptographic strength.
