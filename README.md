# Cielo payment records in Dafny

This project models the two validated records that a Cielo payment request
is built from, and proves what their setters promise.

- `Transacao` is the order record. It has eleven private fields with
  defaults. Each `set*` method either throws `InvalidArgumentException`
  before touching any field, or stores its argument (sometimes normalised)
  and returns the object. Some getters cast the stored field
  (`getCapturar`, `getAutorizar`, `getNumero`, `getValor`, `getDescricao`,
  `isGerarToken`). The others return it as it is.
- `Cartao` is the card record. It is described by its unit tests
  (`tests/CartaoTest.php`): non-digits are stripped from the number, the
  security-code indicator is one of 0, 1, 2 and 9, the security code and
  the expiry are digits, the holder name is cut to 50 characters, an expiry
  before the reference month is refused, the brand must be a member of a
  fixed list with no upper-case letter in it, and the token is stored and handed back.

Modules:

- `Php` (`php.dfy`): the slice of PHP's value semantics the records rely
  on. `Value` is an argument of mixed type (null, bool, int, string, array,
  object). The module also defines the `(string)`, `(int)` and `(bool)`
  casts, `substr($s, 0, $n)` and 64-bit `int`. `Result` is what a
  validating setter does: it returns the object, or it throws
  `InvalidArgumentException`, whose message is carried when it is known.
- `Validation` (`validation.dfy`): the `digit`, `alnum`, `notEmpty` and
  `min` rules as plain predicates over `Value`. `notEmpty` follows PHP's
  `empty()`, so `"0"` and `0` count as empty.
- `TransacaoModel` (`transacao.dfy`): the class `Transacao`, with one field
  per private property. The validating setters return
  `Result<Transacao>`, and `Err` carries the exception's message. Every setter
  has a field-level `modifies` frame, and a refused call leaves the object
  `unchanged`.
- `CartaoModel` (`cartao.dfy`): the class `Cartao`. Its validating setters
  return `Result<Cartao>`, with no message because the messages are not
  known. The tests
  leave some details open: which numbers the card-number rule accepts, the
  brand list, whether the reference month itself is a valid expiry, and the
  month used when `setValidade` gets one argument. These are a `CardRules`
  value held by each object. `MatchesTests` constrains it only by the tested
  examples. `REFERENCE_RULES` is one such value, and it is proved to meet
  those constraints.
- `Luhn` (`luhn.dfy`): the Luhn check of ISO/IEC 7812-1, Annex B. It is the
  number rule in `REFERENCE_RULES`. The tested 16-digit number passes it and
  the tested 8-digit number fails it.

Two behaviours of the code that a reader might not expect:

- `setCapturar`'s default argument is `false` (src/Transacao.php:267), but
  the field starts as the string `'false'` (src/Transacao.php:72).
  `getCapturar()` casts that string to `true`, so a fresh `Transacao`
  reports `true`.
- The doc comment of `setAutorizar` lists the codes 0 to 3
  (src/Transacao.php:290-296), but the method stores any `int`.

## Model

| member | source | states |
|---|---|---|
| Php.NatText | src/Transacao.php:354 | the decimal text of a non-negative int is a non-empty digit string with no leading zero except for 0 |
| Php.Truncate | src/Transacao.php:354 | `substr($s, 0, $n)` is the prefix of length `min(|s|, n)`: the whole string exactly when it is no longer than `n`, and otherwise its first `n` characters |
| Php.ScalarText | src/Transacao.php:143 | the validators see text exactly for bool, int and string arguments |
| Php.LeadingDigitsOfDigits | src/Transacao.php:215 | the `(int)` cast reads all of a digit string |
| Php.NatTextRoundTrip | src/Transacao.php:354 | reading back the decimal text of a non-negative int gives that int |
| Php.IntTextRoundTrip | src/Transacao.php:354 | `(int) (string) $n` is `$n` for every int, negatives included |
| Php.NatTextLength | src/Transacao.php:354 | a number below 10^k has at most k digits |
| Php.Int64TextLength | src/Transacao.php:352-354 | the text of any 64-bit int, sign included, is at most 20 characters, so the 50-character cut never applies |
| Validation.DigitIntOf | src/Transacao.php:211-215 | a value that passes `digit` casts to the number its text denotes |
| Validation.DigitInt | src/Transacao.php:240 | an int passes `digit` exactly when it is not negative |
| Validation.NotEmptyDigits | src/Transacao.php:240 | a digit string is empty in PHP's sense exactly when it is "0" |
| TransacaoModel.NumeroRoundTrip | src/Transacao.php:340-357 | for every 64-bit int, the order number stored by `setNumero` is that int |
| TransacaoModel.ParcelasAcceptedValue | src/Transacao.php:209-218 | installments are accepted exactly when the text is digits denoting at least 1, and the stored count is that number |
| TransacaoModel.MoedaIntAccepted | src/Transacao.php:238-247 | an int currency code is accepted exactly when it is positive |
| TransacaoModel.TidAcceptedString | src/Transacao.php:141-150 | a string TID is accepted exactly when it is alphanumeric and not "0"; 0 and null are refused |
| TransacaoModel.Transacao.constructor | src/Transacao.php:29-121 | the defaults: no TID, product 1, 1 installment, currency 986, capture true (the string 'false'), indicator 0, no date, number 0, amount 0, description "", no token |
| TransacaoModel.Transacao.SetTid | src/Transacao.php:141-150 | succeeds exactly for an alphanumeric, non-empty TID and stores it as given; otherwise returns the TID message and changes nothing |
| TransacaoModel.Transacao.SetProduto | src/Transacao.php:176-189 | succeeds exactly for "1", "2", "3" and "A" and stores the code; otherwise returns the product message and changes nothing |
| TransacaoModel.Transacao.SetParcelas | src/Transacao.php:209-218 | succeeds exactly for digits, not empty and at least 1; it then stores the int value, which is at least 1; otherwise changes nothing; the default argument is 1 |
| TransacaoModel.Transacao.SetMoeda | src/Transacao.php:238-247 | succeeds exactly for digits that are not empty and stores the argument uncast; otherwise changes nothing; the default argument is 986 |
| TransacaoModel.Transacao.SetCapturar | src/Transacao.php:255-272 | stores the flag; the getter then returns it; touches only the capture field and returns the object |
| TransacaoModel.Transacao.SetAutorizar | src/Transacao.php:285-307 | stores any int with no range check; touches only that field and returns the object |
| TransacaoModel.Transacao.SetDataHora | src/Transacao.php:315-332 | stores the timestamp and returns the object |
| TransacaoModel.Transacao.SetNumero | src/Transacao.php:340-357 | `getNumero()` afterwards returns the number passed |
| TransacaoModel.Transacao.SetValor | src/Transacao.php:365-385 | `getValor()` afterwards returns the amount passed |
| TransacaoModel.Transacao.SetDescricao | src/Transacao.php:394-410 | `getDescricao()` afterwards returns the text passed |
| TransacaoModel.Transacao.SetGerarToken | src/Transacao.php:416-432 | `isGerarToken()` afterwards returns the flag passed; the default argument is true |
| Luhn.AcceptedNumberPasses | tests/CartaoTest.php:48-54 | the accepted test number has Luhn sum 100 |
| Luhn.RejectedNumberFails | tests/CartaoTest.php:85-89 | the rejected test number has Luhn sum 56 |
| Luhn.TestedNumbers | tests/CartaoTest.php:48-89 | the Luhn rule accepts 4923993827951627 and refuses 49239938 |
| CartaoModel.ReferenceNumberRule | tests/CartaoTest.php:48-89 | the reference number rule agrees with both tested numbers |
| CartaoModel.ReferenceBrands | tests/CartaoTest.php:317-371 | the reference brand list holds "visa", not "d", and no code with an upper-case letter |
| CartaoModel.ReferenceRulesMatchTests | tests/CartaoTest.php:48-371 | the reference rules meet every tested constraint, so the constraints can be met |
| CartaoModel.OnlyDigits | tests/CartaoTest.php:61-67 | stripping yields digits only and never lengthens the text |
| CartaoModel.OnlyDigitsConcat | tests/CartaoTest.php:61-67 | stripping distributes over concatenation |
| CartaoModel.OnlyDigitsOfDigits | tests/CartaoTest.php:48-54 | a digit string is left as it is |
| CartaoModel.OnlyDigitsOfNonDigits | tests/CartaoTest.php:74-78 | a string without digits strips to nothing |
| CartaoModel.InsertNonDigits | tests/CartaoTest.php:61-67 | inserting non-digits anywhere changes neither acceptance nor the stored number |
| CartaoModel.LacedDigits | tests/CartaoTest.php:61-67 | a number laced with a digit-free filler strips back to the number |
| CartaoModel.LacedNumber | tests/CartaoTest.php:61-67 | the laced number is accepted exactly when the plain number is |
| CartaoModel.NumeroDependsOnlyOnDigits | tests/CartaoTest.php:61-67 | stripping is idempotent, so an argument and its digits are accepted alike |
| CartaoModel.NumeroRoundTrip | tests/CartaoTest.php:48-54 | a digit string the rule accepts is accepted and stored unchanged |
| CartaoModel.StripFour | tests/CartaoTest.php:61-67 | four digits, each followed by a character that is not a digit, strip to the four digits |
| CartaoModel.StripPieces | tests/CartaoTest.php:61-67 | stripping pieces around a digit-free filler gives the pieces' digits in order |
| CartaoModel.StrippedTestNumber | tests/CartaoTest.php:61-67 | the tested argument "4a9a2a3a9a9a3a8aa2a7a9a5a1a6a2a7a" is accepted and strips to 4923993827951627 |
| CartaoModel.AcceptedNumberTest | tests/CartaoTest.php:48-54 | 4923993827951627 is accepted and stored as given |
| CartaoModel.NoDigitsRejected | tests/CartaoTest.php:74-78 | a string with no digit, "" among them, is refused |
| CartaoModel.NumeroTests | tests/CartaoTest.php:74-89 | "" and 49239938 are refused |
| CartaoModel.BandeiraCaseSensitive | tests/CartaoTest.php:329-335 | a brand with an upper-case letter is never accepted: no case folding |
| CartaoModel.ExpiredDigits | tests/CartaoTest.php:266-312 | for a digit expiry, "expired" compares the number it denotes with the reference month |
| CartaoModel.ValidadeMonotone | tests/CartaoTest.php:266-312 | an expiry that is accepted stays accepted when replaced by any later one |
| CartaoModel.ValidadeOrder | tests/CartaoTest.php:266-312 | an expiry later than the reference month is accepted and an earlier one is refused |
| CartaoModel.MonthValue | tests/CartaoTest.php:269 | the number a six-digit YYYYMM string denotes, digit by digit |
| CartaoModel.ValidadeTestedMonths | tests/CartaoTest.php:266-312 | 201606 against 201302 is accepted; 201210 against 201305 is refused |
| CartaoModel.ValidadeTests | tests/CartaoTest.php:278-302 | "aaa", "22." and "22 2" are refused whatever the reference month |
| CartaoModel.IndicadorTests | tests/CartaoTest.php:113-157 | 0, 1, 2, 9 are accepted; 3, -1, null, "d", an array and an object are refused |
| CartaoModel.CodigoTests | tests/CartaoTest.php:182-218 | 123 is accepted; "aaa", "22." and "22 2" are refused |
| CartaoModel.NomeTests | tests/CartaoTest.php:223-261 | a short name is kept whole, sixty 'a's become fifty, and null, "", an array and an object are refused |
| CartaoModel.BandeiraTests | tests/CartaoTest.php:317-358 | "visa" is accepted; "MASTERCARD", 3, -1, null, "d", an array and an object are refused |
| CartaoModel.Cartao.constructor | tests/CartaoTest.php:33 | a fresh card has no token; its other fields start empty ("" or null), which is the model's own choice because the tests pin no default |
| CartaoModel.Cartao.GetBandeiras | tests/CartaoTest.php:365-371 | the brand list holds "visa", does not hold "d", and no code with an upper-case letter |
| CartaoModel.Cartao.SetCartao | tests/CartaoTest.php:48-89 | succeeds exactly when the digits of the argument are non-empty and pass the number rule, and stores those digits; otherwise changes nothing |
| CartaoModel.Cartao.SetIndicador | tests/CartaoTest.php:96-157 | succeeds exactly for the ints 0, 1, 2 and 9 and stores the argument; otherwise changes nothing |
| CartaoModel.Cartao.SetCodigoSeguranca | tests/CartaoTest.php:165-218 | succeeds exactly for a scalar whose text is all digits and stores the argument; otherwise changes nothing |
| CartaoModel.Cartao.SetNomePortador | tests/CartaoTest.php:223-261 | succeeds exactly for a non-empty string and stores its first 50 characters; otherwise changes nothing |
| CartaoModel.Cartao.SetValidade | tests/CartaoTest.php:266-312 | succeeds exactly for a digit expiry later than the reference month (the one passed, or the rules' default), or equal to it when the rules accept that month; stores it as given; otherwise changes nothing |
| CartaoModel.Cartao.SetBandeira | tests/CartaoTest.php:317-358 | succeeds exactly for a string in the brand list and stores it as given; otherwise changes nothing |
| CartaoModel.Cartao.SetToken | tests/CartaoTest.php:378-416 | returns the token itself; `getToken()` returns it and `hasToken()` holds exactly when it is non-empty |

## Left out

- The internals of the validation library (`v::alnum()`, `v::digit()`,
  `notEmpty()` and `min()` at src/Transacao.php:143, 211 and 240) are not
  part of this model. The model chooses strict ASCII classes for `digit`
  and `alnum`, with no whitespace allowed. The library may allow whitespace
  in these rules. If it does, a TID such as "ab 12" or a currency such as
  "9 86" passes the library but is refused by the model. `notEmpty`'s
  trimming is not modelled either: in the model it is always combined with
  a `digit` or `alnum` rule that already refuses whitespace.
- `min` is modelled through the `(int)` cast. That agrees with PHP's
  comparison on the only arguments that reach it: those that passed `digit`.
- TransacaoModel.Transacao.SetProduto: the argument is a string compared by
  exact equality. PHP's loose `switch` comparison is not modelled: an int
  `1` matching `'1'`, or `'1.0'` matching `'1'`.
- The `(int)` cast of a string reads an optional sign and the leading
  digits. Leading whitespace, exponents and saturation at the 64-bit bounds
  are not modelled. Floats are not part of `Value`.
- The 50-character cut in `setNumero`: a 64-bit int never has more than 20
  characters, so the truncation to 50 characters can never change a value
  and is proved to be the identity. Inputs wider than 64 bits cannot reach
  `setNumero`, which takes an `int`.
- Php.Truncate: PHP strings are bytes and `substr` counts bytes, while the
  model's strings are sequences of characters and `Truncate` counts
  characters. The two agree on single-byte text, such as the ASCII digits
  cut at src/Transacao.php:354. A holder name with multi-byte UTF-8
  characters would keep fewer than 50 characters under a byte-wise
  `substr`, and could be cut in the middle of a character. The model does
  not capture that.
- The default field values of `Cartao` ("" for strings, null for the
  indicator and the security code) are the model's own choice. The tests
  pin no default.
- `DateTimeImmutable` is an opaque `Instant`. It is stored and handed back.
  No calendar or time-zone arithmetic is modelled.
- The source of `Cartao` is not part of this model. The model follows its
  tests, and the details they leave open are kept abstract in `CardRules`:
  - the exact card-number rule;
  - the brand list;
  - whether an expiry equal to the reference month is valid;
  - the month `setValidade` compares against when it gets one argument.
- CartaoModel.Cartao.GetBandeiras: states only that "visa" is listed, that
  "d" is not, and that no code has an upper-case letter, because the tests pin down
  nothing more. Each object holds its own `CardRules`, so the list is fixed
  for an object's lifetime. Two objects built with different rules may list
  different brands, while `Cartao` presumably lists the same brands for
  every object.
- CartaoModel.ValidadeAccepted: any digit string is compared by the number
  it denotes. The tests use six-digit YYYYMM values but do not pin down a
  format check, so the model has no length or month-range check. For
  example, it accepts "2013060" and "201613" against the reference
  "201305".
- CartaoModel.Cartao.SetIndicador accepts ints only. Whether `Cartao`
  accepts the string "1" is not pinned down by the tests.
- The exception messages of `Cartao` are not visible, so its setters report
  only that they threw.
- The tests that write a private field through reflection
  (tests/CartaoTest.php:31-40, 96-105, 165-174, 378-387, 407-416) are
  covered by the getters. The getters are plain field reads, so any stored
  value comes back unchanged.
- `sample/autorizacao.php` sends the request over the network and prints
  the result. `tests/Idioma/EspanholTest.php` checks a language constant
  whose class is not part of this model. Neither is modelled.
