# passwd_table in Dafny

A model of `passwd_table.py`, a small tool that prints a sheet of random passwords. Each password
sits next to a short salted SHA-1 digest of it, so the sheet can be kept on paper while only the
digests are stored online. The model covers the part of the program that builds the sheet:

- `generate_passwd` (module `Generator`). The alphabet is the ten digits, then the upper-case
  letters, the lower-case letters and `!@#$%^&*`, each only if its flag is set, in that order.
  The password is `passwd_length` random choices from that alphabet.
- `hash_passwd` (module `Hasher`). The hex SHA-1 digest of salt followed by password, upper-cased
  and cut to `hash_length` characters (16 by default).
- `generate_passwd_pair` (module `Pair`). One flag turns on both letter cases. The same password
  is returned and hashed at the default length.
- `generate_passwd_table` up to the matrix `data` it hands to the table renderer (module `Table`).
  The matrix holds a header row `Weak | Normal | Strong`. Then come three tiers of passwords, of
  6, 8 and 12 characters, each with `repeat_times` rows of three cells. The cells are the Weak,
  Normal and Strong classes, in that order, formatted as `'%12s : %s'`. A blank row
  `['', '', '']` follows the first two tiers but not the last.

Randomness and the hash primitive are inputs to the model:

- `random.choice` and `uuid.uuid4().hex` are oracles in `Random.Source`. `choice(k)` picks the
  k-th random character, as an index taken modulo the alphabet size. `uuid4(k)` is the k-th salt,
  which is 32 lower-case hex digits.
- A `Random.Cursor` counts the choices and salts used so far. Each call therefore sees fresh
  values, in the order the program draws them.
- `hashlib.sha1(...).hexdigest()` is a parameter `sha1` of type `Hasher.Sha1`. It is any function
  from text to 40 lower-case hex digits.

The generator expression of `generate_passwd` and the nested `for` loops of
`generate_passwd_table` stay loops. `Generator.GeneratePasswd` grows the alphabet with the
same conditional steps, then draws the characters one by one in a loop. `Table.GenerateLine`
runs the innermost loop over the three strength classes, appending to `line`, and
`Table.GeneratePasswdTable` runs the loops over the tiers and the rows, appending to `data`.

Each method is proved equal to a specification function:

- `Generator.Password` for the password;
- `Table.Line` for a row;
- `Table.PasswdMatrix` for the whole matrix.

The lemmas then state what those functions promise. They cover the alphabet's order, size and
membership, the absence of duplicates, and the length and digits of the digest. For the matrix
they cover the row count, the position of every section and separator, and the cells: every cell
reads back into its password and digest.

Lengths and counts are `int`, with Python's meaning for negative values. `range(n)` runs zero
times when `n` is negative, so a negative `passwd_length` gives the empty password and a
negative `repeat_times` gives a matrix with no data rows. `s[:n]` with a negative `n` drops the
last `-n` characters. The code does not refuse a negative length, and the model follows the code.

## Model

| member | source | states |
|---|---|---|
| Chars.CharacterSets | passwd_table.py:14-16 | `string.digits`, `UPPER_CHARS`, `LOWER_CHARS` and `SPECIAL_CHARS` hold exactly the digits, the upper-case letters, the lower-case letters and the eight symbols `!@#$%^&*` |
| Chars.CharacterSetsDistinct | passwd_table.py:14-16 | none of the four character sets repeats a character |
| Chars.UpperLowerHex | passwd_table.py:57 | `upper()` maps a lower-case hex digit to an upper-case hex digit, and lower-casing gives the original back |
| Generator.Alphabet | passwd_table.py:34-43 | the alphabet has 10 + 26·[upper] + 26·[lower] + 8·[special] characters |
| Generator.AlphabetLayout | passwd_table.py:34-43 | the alphabet is the digits, then `UPPER_CHARS` if enabled, then `LOWER_CHARS` if enabled, then the special characters as its last 8 if enabled |
| Generator.AlphabetClasses | passwd_table.py:34-43 | a character is in the alphabet exactly when it is a digit or in an enabled class, and the alphabet has no duplicates |
| Generator.DigitsAlwaysIncluded | passwd_table.py:34 | every digit is in the alphabet, whatever the flags |
| Generator.DigitsOnly | passwd_table.py:28-45 | with every flag off the alphabet is `0123456789` and the password holds digits only |
| Generator.Password | passwd_table.py:45 | the password has exactly `passwd_length` characters, none when it is negative |
| Generator.GeneratePasswd | passwd_table.py:22-45 | the alphabet built by the `+=` steps and the character-by-character draw give `Password`; the draw uses one choice per character |
| Generator.DefaultPassword | passwd_table.py:18-45 | `generate_passwd()` with all defaults gives six characters, each a digit |
| Generator.PasswordInAlphabet | passwd_table.py:45 | every character of the password is in the alphabet its flags select |
| Generator.NoLeadingSpace | passwd_table.py:34-45 | no password starts with a space, as no alphabet holds one |
| Hasher.Head | passwd_table.py:57 | `s[:n]` is the first `min(n, len(s))` characters, or `len(s) + n` of them when `n` is negative |
| Hasher.UpperHexDigest | passwd_table.py:57 | an upper-cased hex digest is all upper-case hex digits, and lower-casing it gives the digest back |
| Hasher.HashPasswd | passwd_table.py:48-57 | the result has `min(hash_length, 40)` characters for a non-negative length, and `max(40 + hash_length, 0)` for a negative one |
| Hasher.HashPasswdDigest | passwd_table.py:56-57 | the result is a prefix of the upper-cased digest of salt followed by password, all upper-case hex digits, and lower-cased it is the same prefix of the digest itself |
| Pair.GeneratePasswdPair | passwd_table.py:60-69 | the password is drawn with both letter cases set by `with_chars`, the hash is `hash_passwd` of that same password at the default length with the next salt, it has 16 characters, and the pair uses the password's choices and one salt |
| Table.PadLeft | passwd_table.py:94 | `%12s` right-justifies: the width is `max(12, len)`, the text sits at the end and the rest is spaces |
| Table.TrimPadLeft | passwd_table.py:94 | removing the leading spaces from a right-justified text that does not start with a space gives the text back |
| Table.FormatCell | passwd_table.py:94 | a cell has `max(12, len(passwd)) + 3 + len(hashed)` characters |
| Table.FormatCellLayout | passwd_table.py:94 | a cell is the padded password, then `" : "`, then the digest |
| Table.CellRoundTrip | passwd_table.py:94 | for a password of at most 12 characters not starting with a space, the cell has `" : "` at columns 12-14 and parses back into password and digest |
| Table.ColumnStep | passwd_table.py:88-93 | each column of a row starts one password's choices and one salt after the previous one |
| Table.PairCell | passwd_table.py:88-94 | the pair drawn for column `k`, formatted, is that column's cell of the row |
| Table.ColumnPair | passwd_table.py:88-94 | column `k`'s password has the row's length and is drawn from the alphabet of column `k`'s strength class; its digest has 16 upper-case hex digits, a prefix of the digest of the column's salt followed by that same password |
| Table.LineCellParses | passwd_table.py:88-94 | for lengths up to 12 every cell is 31 characters wide, has `" : "` at columns 12-14 and parses back into its column's password and digest |
| Table.GenerateLine | passwd_table.py:87-96 | the loop over the strength classes builds the row of Weak, Normal and Strong cells, and consumes three passwords' choices and three salts |
| Table.RowStep | passwd_table.py:85-96 | a row moves the random sources to the start of the next row, and a tier's last row to the first row of the next tier |
| Table.TiersDoneTable | passwd_table.py:83-99 | the header, the three sections and the blank rows after the first two make up the whole matrix |
| Table.GeneratePasswdTable | passwd_table.py:83-99 | the nested loops build exactly the matrix `PasswdMatrix`: the header, then for each tier its `repeat_times` rows, then a blank row after every tier but the last |
| Table.DefaultSheetRows | passwd_table.py:72-99 | with the default `repeat_times` of 10 the matrix has 33 rows, blank at positions 11 and 22 |
| Table.TableLayout | passwd_table.py:83-99 | the matrix has `3·repeat_times + 3` rows: the header, the 6-character section, a blank row, the 8-character section, a blank row, and the 12-character section at the end |
| Table.DataRowCells | passwd_table.py:85-94 | each data row has three cells; each is 31 characters and reads back into a password of the tier's length from its column's alphabet and a 16-digit upper-case hex digest |
| Table.DataRowNotBlank | passwd_table.py:96 | no data row is a blank row |
| Table.BlankRowsBetween | passwd_table.py:98-99 | in a header, three sections of `n` non-blank rows and the two blank rows between them, only those two rows are blank |
| Table.SeparatorRows | passwd_table.py:83-99 | a row of the matrix is blank exactly at positions `repeat_times + 1` and `2·repeat_times + 2`, so no blank row follows the last tier |

## Left out

- SHA-1 itself (`hashlib.sha1`, line 57) is not modelled. It is a parameter: any function from text to 40 lower-case hex digits.
- `uuid.uuid4` (line 56) and `random.choice` (line 45) are oracles, so their randomness is not modelled. Uniformity, independence and "two digests differ" are probabilistic and are not stated.
- Salt and password are joined as text and hashed as given, as Python 2 does. Python 3's need to encode the text to bytes first is not modelled.
- The hand-over to `AsciiTable`, the title `'My Password Table'` and the rendered text (lines 101-103) belong to a third-party library. The model stops at the matrix `data`.
- The `__main__` block that prints the table (lines 106-107) is output only and is not modelled.
- `generate_passwd_pair`'s default `passwd_length=None` (line 62) would fail inside `range`. The only caller always passes a length, so the model takes an integer length.
- Default argument values are not modelled as defaults. `DefaultPasswdLength`, `DefaultHashLength` and `DefaultRepeatTimes` hold them; `Pair.GeneratePasswdPair` passes `DefaultHashLength`, and `Generator.DefaultPassword` and `Table.DefaultSheetRows` state what the other two defaults give.
- `str.upper` and `str.lower` are modelled on ASCII only. A digest holds no other characters.
- A negative length or repeat count is not refused: the code accepts it, with the behaviour described above.
- The digest primitive being unavailable, and the renderer refusing the matrix, are failures outside the modelled code.
