# Bank-transfer QR simulator: verified model of the form logic

The simulator is a single React component (`src/App.tsx`). A camera scanner
hands it the text of a VietQR payment code, an external library decodes that
text into a record, and the user fills in an amount and (when the
`accessToken` query parameter is absent or empty) an access token. The pay button
posts a transfer request to a simulation endpoint and shows a toast with the
outcome.

This project models the decision logic inside that component:

- **BankDirectory**: the four-entry table `listSupportBanks`,
  the first-match `find` on it, and the bank name shown for a scanned BIN.
  An unknown BIN means "unsupported" ("Không hỗ trợ"), not an error. BINs in
  the table are distinct, so the first match is the only match.
- **IntParsing**: JavaScript's `parseInt(text, 10)` on a string, as section
  19.2.5 of ECMA-262 defines it. It skips leading white space, reads an
  optional sign, then the longest run of decimal digits. No digits is NaN.
- **AmountPolicy**: the bounds `[1, 499000000]` and the amount field's
  `onChange` rule. `parseInt(...) || 0` is capped at the maximum and then
  raised to the minimum.
- **TokenPolicy**: the token regular expression
  `^[0-9a-f]{8}-[0-9a-f]{4}-[0-9a-f]{4}-[0-9a-f]{4}-[0-9a-f]{12}$`. It is kept
  as data (fixed-width pieces matched anchored at both ends). It is proved
  equal to the positional description: 36 characters, hyphens at 8, 13, 18
  and 23, lower-case hex everywhere else.
- **VietQr**: the shape of the decoded record (`IVietQr`).
- **TransferForm**: the component's state as a class `Form`. Its fields are
  `qrData`, `tokenData`, `qrErrorMessage`, `tokenErrorMessage`,
  `isValidToken`, `isValidQr` and `amount`, plus the start-up token. One
  method models each handler that changes them. `Valid()` is the invariant
  every handler keeps:
  - `isValidQr` implies a record is held and no QR error is shown;
  - a held record was decoded valid;
  - `isValidToken` implies the held token matches the pattern;
  - the amount is in range.

  `SubmitEnabled` is the pay button's gate (`disabled={!isValidQr}`).

In these places the code's behaviour may be unexpected; the model follows the code:

- The pay button is gated on `isValidQr` alone. Token validity and amount
  validity do not enter the gate, and `isValidToken` is never read.
- A failed transfer leaves the scanned record, token and amount as they
  were. It does not clear the record.
- A scan that decodes invalid sets the error and clears `isValidQr`, but keeps
  the previously held record, which stays on screen.
- There is no guard against a second submission while one is in flight.
- `handleSubmit` is also the form element's `onSubmit` handler (line 225),
  so `Form.Submit` does not require the gate. With no record held, the
  request's bank code, account and remark are absent.

## Model

| member | source | states |
|---|---|---|
| BankDirectory.Find | src/App.tsx:126 | `find` returns none exactly when no entry has the BIN; otherwise it returns the first entry that has it |
| BankDirectory.FindIsUnique | src/App.tsx:64-87 | when BINs are distinct, `find` returns an entry exactly when that entry is in the table and carries the BIN |
| BankDirectory.SupportedBinsDistinct | src/App.tsx:64-87 | no two entries of the directory share a BIN |
| BankDirectory.Resolve | src/App.tsx:126 | a resolved bank is a directory entry with the asked BIN; none is resolved exactly when no entry has the BIN |
| BankDirectory.ResolveSupported | src/App.tsx:64-87 | 970422, 970457, 970454 and 970415 resolve to the MB BANK/mbbank, Wooribank/wooribank, Viet Capital Bank/banvietbank and VietinBank/vietinbank entries |
| BankDirectory.ResolveUnsupported | src/App.tsx:64-87 | every other BIN resolves to none |
| BankDirectory.DisplayName | src/App.tsx:237 | a supported BIN shows its short name; the label "Không hỗ trợ" is shown exactly when the BIN is unsupported |
| IntParsing.TrimStart | src/App.tsx:283 | what is left after skipping white space is no longer than the input and does not start with white space; TrimStartIsSuffix pins it down |
| IntParsing.TrimStartIsSuffix | src/App.tsx:283 | the text left after skipping white space is a suffix of the input, and everything dropped before it is white space |
| IntParsing.DigitRunLength | src/App.tsx:283 | the digit run at the front of the text is all digits and ends at a non-digit or at the end |
| IntParsing.ParseInt | src/App.tsx:283 | `parseInt(text, 10)` is NaN exactly when no digit follows the white space and optional sign; otherwise it is the value of those digits, negated after '-'; ParseIntOfDigits, ParseIntOfDecimal, ParseIntOfSignedDecimal, ParseIntSkipsSpace and ParseIntOfNonNumeric give its value on whole classes of text |
| IntParsing.ParseIntOrZero | src/App.tsx:283 | `parseInt(...) \|\| 0` is 0 exactly when the digits read are none or all '0' (JavaScript treats NaN and ±0 as falsy); otherwise it is the parsed integer |
| IntParsing.ParseIntOfDigits | src/App.tsx:283 | any digit string, leading zeros included, followed by text that does not start with a digit, parses to the number it denotes |
| IntParsing.ParseIntOfDecimal | src/App.tsx:283 | the decimal text of n, followed by text that does not start with a digit, parses to n |
| IntParsing.ParseIntOfSignedDecimal | src/App.tsx:283 | with a leading "-" the same text parses to -n, with a leading "+" to n |
| IntParsing.ParseIntSkipsSpace | src/App.tsx:283 | leading white space does not change what `parseInt` returns |
| IntParsing.ParseIntOfNonNumeric | src/App.tsx:283 | text starting with a character that is not white space, a sign or a digit is NaN |
| AmountPolicy.Clamp | src/App.tsx:284-285 | the result lies in [1, 499000000]; an in-range value is unchanged; below gives 1; above gives 499000000 |
| AmountPolicy.ClampIsNearest | src/App.tsx:284-285 | the clamped value is the nearest point of the range to the input |
| AmountPolicy.ClampIdempotent | src/App.tsx:284-285 | clamping twice is clamping once |
| AmountPolicy.AmountFromText | src/App.tsx:283-286 | the stored amount is always in range, and non-numeric text stores 1 |
| AmountPolicy.AmountOfDigitText | src/App.tsx:283-286 | digits denoting an in-range amount, leading zeros allowed, optionally followed by a fraction or an exponent, store that amount |
| AmountPolicy.AmountOfInRangeText | src/App.tsx:283-286 | the canonical decimal text of an in-range integer, optionally followed by a fraction or an exponent, stores that integer |
| AmountPolicy.AmountOfOutOfRangeText | src/App.tsx:283-286 | 0 and negative integers store 1; integers above 499000000 store 499000000 |
| AmountPolicy.AmountAboveMaxExample | src/App.tsx:283-286 | the text "500000000" stores 499000000 |
| AmountPolicy.AmountExamples | src/App.tsx:283-286 | "0", "-5", "abc" and "" store 1; "007" stores 7 |
| TokenPolicy.Matches | src/App.tsx:174-175 | `tokentRegex.test(value)` as an anchored match of the pattern's pieces; only strings of the pattern's exact width can match; TokenPatternMeaning states which strings the token pattern accepts |
| TokenPolicy.TokenPatternMeaning | src/App.tsx:174 | the token regex accepts a string exactly when it has 36 characters, hyphens at 8, 13, 18 and 23, and lower-case hex elsewhere |
| TokenPolicy.TokenHasNoUpperCaseOrSpace | src/App.tsx:174 | every character of an accepted token is a hyphen or lower-case hex, so none is an upper-case letter or white space |
| TokenPolicy.TokenAcceptsLowerCaseUuid | src/App.tsx:174 | "550e8400-e29b-41d4-a716-446655440000" is accepted |
| TokenPolicy.TokenRejects | src/App.tsx:174 | "not-a-token", the empty string and an upper-case UUID are rejected |
| TransferForm.MakeRequest | src/App.tsx:124-130 | the request carries the token and amount; the account number and remark come from the held record; a bank code is present exactly when the record's BIN is in the directory, and then it is that entry's code |
| TransferForm.FailureReason | src/App.tsx:148 | the response body's message when present and non-empty; otherwise the error's own message |
| TransferForm.Form.constructor | src/App.tsx:105-112 | initial state: no record, no messages, both flags false, amount 100000, token taken from the start-up parameter; the invariant holds |
| TransferForm.Form.SubmitEnabled | src/App.tsx:293 | the pay button's enabled state; under the invariant an enabled button implies a valid record is held (see EnabledMeansValidRecord) |
| TransferForm.Form.EnabledMeansValidRecord | src/App.tsx:293 | when the pay button is enabled, a valid record is held; the request then carries its account number and an in-range amount |
| TransferForm.Form.QrChange | src/App.tsx:152-164 | a valid decode stores the record, sets the flag and clears the error; an invalid one sets "QR Code không hợp lệ", clears the flag and keeps the old record; nothing else changes |
| TransferForm.Form.QrError | src/App.tsx:166-170 | a scanner error records its text, clears the flag and drops the record |
| TransferForm.Form.ChangeToken | src/App.tsx:172-184 | a well-formed token is stored, flagged valid and clears the error; any other text sets "Token không hợp lệ", clears the flag and leaves the stored token |
| TransferForm.Form.ChangeAmount | src/App.tsx:282-287 | the stored amount becomes the clamped parse of the field's text; nothing else changes |
| TransferForm.Form.Submit | src/App.tsx:122-141 | the posted request is the one built from the current token, record and amount; the state does not change |
| TransferForm.Form.Respond | src/App.tsx:142-149 | success shows "Chuyển tiền thành công", drops the record and clears the flag; failure shows the failure prefix plus the reason and changes no state |

`PaymentScenario` and `OutcomeScenario` in `transfer_form.dfy` model no
source member. They are client checks. They drive the handlers through one
scan-amount-token-pay sequence and through both outcomes, and assert what the
handlers' contracts alone let a caller conclude.

## Left out

- `console.log(data)` in the scan handler (line 153): logging output only, no effect on state.

- `decodeQr` from `vn-qr-pay` (TLV parsing, CRC check): external library code, not part of this model. `Form.QrChange` takes the decoder as a function parameter and uses its result as given.
- The HTTP call (axios, the fixed endpoint, JSON encoding): network I/O. `Form.Submit` returns the request. `Form.Respond` takes the outcome as input. When a field is `None`, JSON serialisation writes it as `null` or drops it; that wire format is not modelled.
- Promise timing: the call settles at some later point, and other handlers may run before that. The model splits the call into sending (`Submit`) and settling (`Respond`). It does not constrain when these are called relative to each other.
- Camera capture (`QrScanner`): device I/O, modelled as the text or error text it delivers.
- Reading `accessToken` from the URL: environment I/O, modelled as the constructor's parameter. That the token field is shown only when the `accessToken` parameter is absent or empty (`!initTokenData`, line 262) is rendering and is not modelled.
- Rendering, the theme, `Copyright`, toasts and the snackbar with `handleClose`: UI only. The amount field's `error`/`helperText` expression (lines 288-289) is UI only too. `Valid()` keeps the amount in range, so that expression is always false.
- IntParsing.ParseInt: the result is an exact integer. JavaScript rounds values whose magnitude exceeds 2^53 to a double, and a very long digit run gives an infinity. Such values, and the infinities, lie outside [1, 499000000] anyway, so the clamp stores the same amount (the minimum or the maximum).
- FailureReason: `message` is assumed to be a string when present; a non-string `message` is not modelled.
