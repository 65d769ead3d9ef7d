# OmniKassa 2.0 order announcement, modelled in Dafny

This project models the signable-message layer of the Rabobank OmniKassa 2.0
payment gateway client. The webshop builds an *order announcement* for each
payment, signs it with its signing key and posts it as a JSON object. The
model covers three things:

- **The order** (`OrderMessage`). Its setters check each field's format before
  assigning it:
  - `ANS..24` for the merchant order id;
  - `AN..1024` for the return URL;
  - `AN..35` for the description;
  - `AN..2` for the language;
  - `AN..50` for the payment brand and its force mode.

  A value that fails its check throws, and the field keeps its old value. The
  order lists its signature fields in the processor's fixed order. Its JSON
  object always carries the four mandatory keys and carries any other key
  only when that field is set.
- **The message base** (`Message`). A message carries an optional signature.
  `sign` stores the signature of the message's current signature fields.
  `is_valid` recomputes that signature and compares it with the stored one. It
  refuses when either signature is empty in PHP's sense, where `"0"` counts as
  empty.
- **The `AN` field rules** (`DataHelper`): `validate_an`, `validate_ans`,
  `validate_null_or_an` and `sanitize_an`. They are modelled as the helper's
  test table fixes them:
  - a value is refused when it is too long or holds markup;
  - outer whitespace is tolerated;
  - `sanitize_an` strips tags, trims, then cuts to the limit in code points.

The signer (`Security::get_signature` and `Security::validate_signature`) is a
parameter. A signature is a keyed hash of the signature fields joined with a
fixed separator. The join is modelled exactly. The keyed hash and the
comparison are two functions about which nothing is assumed except where a
lemma says so:
- `ComparesByEquality`: the comparison is string equality;
- `HashInjective`: under the key, different joined texts hash differently.

The PHP class `Order extends Message` becomes an `Order` class that owns a
`Message.Message`. `Message`'s methods take the order's current signature
fields as an argument. Those are the fields the signer reads from the message.

Files:
- `wrappers.dfy`: `Option` (PHP `null`) and `Result`.
- `data_helper.dfy`: the field rules, their properties and the test-table rows.
- `security.dfy`: the signer.
- `message.dfy`: the message base.
- `order.dfy`: the order.

## Model

| member | source | states |
|---|---|---|
| DataHelper.LeadingCount | tests/src/DataHelperTest.php:56-58 | counts the leading whitespace: everything before it is whitespace and the character at it is not |
| DataHelper.TrailingCount | tests/src/DataHelperTest.php:56-58 | counts the trailing whitespace: everything after the kept part is whitespace and the last kept character is not |
| DataHelper.Trim | tests/src/DataHelperTest.php:51-58 | the result is the unbroken slice of the input that starts after the leading whitespace; only whitespace follows it, and it has no outer whitespace itself |
| DataHelper.TrimSplits | tests/src/DataHelperTest.php:51-58 | the input is whitespace, then the trimmed text, then whitespace |
| DataHelper.TrimUnique | tests/src/DataHelperTest.php:51-58 | any slice with only whitespace outside it and none at its ends is the trimmed text |
| DataHelper.TrimKeepsText | tests/src/DataHelperTest.php:99 | trimming keeps every non-whitespace character of the input and adds none |
| DataHelper.TrimNoOuterWhitespace | tests/src/DataHelperTest.php:56-58 | trimming text without outer whitespace changes nothing |
| DataHelper.StripTags | tests/src/DataHelperTest.php:97-98 | the stripped text holds no `<` and is no longer than the input |
| DataHelper.StripAllTags | tests/src/DataHelperTest.php:51-55 | `wp_strip_all_tags`: no `<`, no outer whitespace, no longer than the input |
| DataHelper.Truncate | tests/src/DataHelperTest.php:91-95 | `mb_substr(s, 0, n)`: a prefix of the input, exactly `min(len, n)` code points long |
| DataHelper.SanitizeAn | tests/src/DataHelperTest.php:85-101 | at most `length` characters and no `<`; a prefix of the stripped and trimmed text; equal to it when that fits, exactly `length` long otherwise |
| DataHelper.ValidateAn | tests/src/DataHelperTest.php:30-40 | a pass implies the length limit holds; every failure names the field; the failure is `TooLong` exactly when the value is over the limit |
| DataHelper.ValidateAns | src/Order.php:200-204 | passes exactly when `validate_an` passes; a failure names the field |
| DataHelper.ValidateNullOrAn | src/Order.php:238-242 | `null` always passes; any other value gets `validate_an`'s verdict |
| DataHelper.StripTagsTagFree | tests/src/DataHelperTest.php:50 | text without `<` is left unchanged by tag stripping |
| DataHelper.StripTagsChangesIff | tests/src/DataHelperTest.php:50-61 | stripping changes the text if and only if it contains `<` |
| DataHelper.ValidateAnAccepts | tests/src/DataHelperTest.php:47-63 | `validate_an` passes if and only if the value is within the limit and holds no `<` |
| DataHelper.ValidateNullOrAnAccepts | src/Order.php:238-242 | `validate_null_or_an` passes if and only if the value is `null`, or within the limit and free of `<` |
| DataHelper.ValidatedIsSanitized | tests/src/DataHelperTest.php:47-101 | a value `validate_an` accepts is returned by `sanitize_an` trimmed and otherwise unchanged |
| DataHelper.SanitizeAnTagFree | tests/src/DataHelperTest.php:88-95 | on tag-free, trimmed text `sanitize_an` is the identity within the limit and the first `length` characters beyond it |
| DataHelper.StripTagsText | tests/src/DataHelperTest.php:97 | text before a tag passes through stripping unchanged |
| DataHelper.SkipTagClosed | tests/src/DataHelperTest.php:97-98 | skipping a tag stops right after its closing `>` |
| DataHelper.StripTagsTag | tests/src/DataHelperTest.php:97-98 | a whole tag `<t>` is removed |
| DataHelper.StripTagsElement | tests/src/DataHelperTest.php:97-98 | an element `<open>x<close>` leaves only its inner text |
| DataHelper.StripTagsAroundElement | tests/src/DataHelperTest.php:97-98 | text around one element keeps everything but its two tags |
| DataHelper.SanitizeAnDigitsRows | tests/src/DataHelperTest.php:88-91 | `1234567890` is kept with limits 10 and 100, and cut to `12345` with limit 5 |
| DataHelper.SanitizeAnLatinRow | tests/src/DataHelperTest.php:93 | the Latin-1 row is cut to its first five letters, counting code points |
| DataHelper.SanitizeAnArabicRow | tests/src/DataHelperTest.php:95 | the Arabic row is cut to its first ten code points |
| DataHelper.SanitizeAnWordsRow | tests/src/DataHelperTest.php:97 | `test <strong>abcd</strong> 1234` becomes `test abcd 1234` |
| DataHelper.SanitizeAnTaggedDigitsRow | tests/src/DataHelperTest.php:98 | `12345<strong>67890</strong>` with limit 10 keeps all ten digits |
| DataHelper.CutBeforeStripLosesText | tests/src/DataHelperTest.php:98 | cutting before stripping would give only `12345`, so stripping must come first |
| DataHelper.SanitizeAnLinesRow | tests/src/DataHelperTest.php:99 | interior CR/LF pairs survive sanitising |
| DataHelper.ValidateAnPlainRows | tests/src/DataHelperTest.php:50-58 | ten digits pass with limit 50, with or without a leading and a trailing space |
| DataHelper.ValidateAnParagraphRow | tests/src/DataHelperTest.php:60 | `<p>1234567890</p>` is refused as markup |
| DataHelper.ValidateAnScriptRow | tests/src/DataHelperTest.php:61 | `<script>1234567890</script>` is refused as markup |
| Security.JoinAround | src/Message.php:54 | for the join the signer applies to the fields passed at this call: the joined text is the fields before, the separator, the field, the separator, the fields after |
| Security.OneFieldChangesJoin | src/Message.php:53-79 | changing any one field changes the joined text, whatever the separator |
| Security.SeparatorCollision | src/Message.php:53-79 | two different field lists can join to the same text: a field holding the separator joins like the two fields around it |
| Message.Verdict | src/Message.php:65-79 | false when the recomputed signature is empty, false when the stored one is empty or null; true only when the stored signature is present and the signer's comparison accepts it |
| Message.Message.constructor | src/Message.php:26 | a new message carries no signature |
| Message.Message.GetSignature | src/Message.php:33-35 | returns the stored signature |
| Message.Message.SetSignature | src/Message.php:43-45 | replaces the signature and nothing else |
| Message.Message.Sign | src/Message.php:53-57 | the stored signature becomes the signer's signature of the current fields under the key |
| Message.Message.IsValid | src/Message.php:65-79 | false when the recomputed signature is empty, false when the stored one is empty or null, otherwise the signer's comparison; changes nothing |
| Message.UnsignedNeverValid | src/Message.php:72-76 | a message without a signature, or with an empty one, is never valid |
| Message.SignThenValid | src/Message.php:53-79 | under equality comparison, a message signed over its fields is valid for the same fields and key |
| Message.ValidIffCarriesOwnSignature | src/Message.php:65-79 | under equality comparison, valid if and only if the message carries the non-empty signature of its current fields |
| Message.TamperedNotValid | src/Message.php:53-79 | under equality comparison and an injective keyed hash, a message whose fields join differently after signing is not valid |
| Message.OneFieldTamperedNotValid | src/Message.php:53-79 | under the same assumptions, changing any one signature field after signing makes the message invalid |
| Message.SeparatorShiftUndetected | src/Message.php:53-79 | under equality comparison, moving a separator between two fields into one field is not detected |
| Message.SignThenIsValid | src/Message.php:53-79 | calling `sign` then `is_valid` answers true and leaves the stored signature |
| OrderMessage.MandatoryFields | src/Order.php:406-413 | the mandatory block is timestamp, merchant order id, the amount's fields, language, description, return URL, with `null` signed as "" |
| OrderMessage.SignatureFields | src/Order.php:405-440 | the fields given are kept as a prefix |
| OrderMessage.MandatoryLayout | src/Order.php:406-413 | the mandatory block sits right after the fields given |
| OrderMessage.OptionalLayout | src/Order.php:415-437 | after the mandatory block come, at explicit offsets, the order items, the shipping address, the brand, the brand's force mode, the customer information and the billing address, each empty when its field is `null`, and nothing after the billing address |
| OrderMessage.SignatureFieldCount | src/Order.php:405-440 | the exact number of fields appended, counting each optional part only when it is set |
| OrderMessage.NullSignsAsEmpty | src/Order.php:411-412 | a `null` language or description signs like an empty one |
| OrderMessage.MerchantOrderIdPosition | src/Order.php:407 | the merchant order id is the second appended field: a different id gives the same fields with that one replaced |
| OrderMessage.ReturnUrlPosition | src/Order.php:413 | the return URL follows the amount's fields: a different URL gives the same fields with that one replaced |
| OrderMessage.Rank | src/Order.php:353-394 | each key has one position in the order the object is built |
| OrderMessage.Entries | src/Order.php:350-397 | each entry's key is one of the listed keys and its value is that key's field |
| OrderMessage.JsonSerialize | src/Order.php:350-397 | each entry carries its own field's value, and the keys follow the build order, so none repeats |
| OrderMessage.KeyOrderAscending | src/Order.php:353-394 | the build order lists every key once, in rank order |
| OrderMessage.EntriesAscending | src/Order.php:350-397 | leaving out unset fields keeps the remaining keys in the build order |
| OrderMessage.KeyNameInjective | src/Order.php:353-394 | no two keys share a wire name |
| OrderMessage.JsonWireNamesDistinct | src/Order.php:350-397 | the serialised object never names a member twice |
| OrderMessage.LookupEntries | src/Order.php:350-397 | looking a key up finds its field's value when listed, nothing otherwise |
| OrderMessage.LookupAbsent | src/Order.php:350-397 | a key that is not listed is absent from the object |
| OrderMessage.JsonContents | src/Order.php:350-397 | every key maps to its field's value; the four mandatory keys are always present, every other key exactly when its field is set |
| OrderMessage.MetaDataSentNotSigned | src/Order.php:392-394 | the brand metadata is sent in the object and leaves the signature fields unchanged |
| OrderMessage.MetaDataChangeKeepsValidity | src/Order.php:289-291 | changing the brand metadata after signing keeps the order valid |
| OrderMessage.ChangedOrderIdInvalidates | src/Order.php:407 | under equality comparison and an injective keyed hash, changing the merchant order id after signing makes the order invalid |
| OrderMessage.ChangedReturnUrlInvalidates | src/Order.php:413 | under the same assumptions, changing the return URL after signing makes the order invalid |
| OrderMessage.Order.Init | src/Order.php:164-169 | a new order holds the mandatory fields, every optional field `null`, and no signature |
| OrderMessage.Order.Create | src/Order.php:164-169 | an order exists if and only if both the id and URL checks pass; the first failing check is the error thrown; a created order is well formed, fresh and unsigned |
| OrderMessage.Order.SetTimestamp | src/Order.php:177-179 | replaces the timestamp and nothing else |
| OrderMessage.Order.SetMerchantOrderId | src/Order.php:200-204 | checks `ANS..24` and assigns only a value that passed; a refused value changes nothing; validity is kept |
| OrderMessage.Order.SetAmount | src/Order.php:212-214 | replaces the amount and nothing else |
| OrderMessage.Order.SetMerchantReturnUrl | src/Order.php:225-229 | checks `AN..1024` and assigns only a value that passed; validity is kept |
| OrderMessage.Order.SetDescription | src/Order.php:238-242 | checks `null` or `AN..35` and assigns only a value that passed; validity is kept |
| OrderMessage.Order.SetLanguage | src/Order.php:251-255 | checks `null` or `AN..2` and assigns only a value that passed; validity is kept |
| OrderMessage.Order.SetPaymentBrand | src/Order.php:264-268 | checks `null` or `AN..50` and assigns only a value that passed; validity is kept |
| OrderMessage.Order.SetPaymentBrandForce | src/Order.php:277-281 | checks `null` or `AN..50` and assigns only a value that passed; validity is kept |
| OrderMessage.Order.SetPaymentBrandMetaData | src/Order.php:289-291 | replaces the brand metadata and nothing else |
| OrderMessage.Order.NewItems | src/Order.php:298-302 | sets the order items to a new empty list and returns that list |
| OrderMessage.Order.SetOrderItems | src/Order.php:310-312 | replaces the order items, possibly by `null`, and nothing else |
| OrderMessage.Order.SetShippingDetail | src/Order.php:320-322 | replaces the shipping address, possibly by `null`, and nothing else |
| OrderMessage.Order.SetBillingDetail | src/Order.php:330-332 | replaces the billing address, possibly by `null`, and nothing else |
| OrderMessage.Order.SetCustomerInformation | src/Order.php:340-342 | sets the customer information, never to `null`, and nothing else |
| OrderMessage.Order.Sign | src/Message.php:53-57 | the order's signature becomes the signer's signature of its current signature fields |
| OrderMessage.Order.IsValid | src/Message.php:65-79 | the `is_valid` verdict on the order's current signature fields and stored signature |
| OrderMessage.SignThenIsValid | src/Message.php:53-79 | signing an order and then checking it answers true and leaves its fields unchanged |

## Left out

- The signer's internals are not modelled: the keyed hash over the joined fields, its algorithm and encoding, and the constant-time comparison. `Security` (the PHP class) is not part of this model, so the separator, the hash and the comparison are parameters.
- The clock is not modelled. `new DateTime()` in `__construct` becomes the `now` argument of `Create`.
- The timestamp is kept as its `DATE_ATOM` rendering, so date formatting is not modelled.
- `Money`, `OrderItems`, `Address` and `CustomerInformation` are not part of this model. Each is represented only by the signature fields its own `get_signature_fields` appends. The model assumes that call appends and never rewrites the fields already present.
- Each part's own JSON encoding is not modelled. The order's JSON object is modelled as its ordered keys and values.
- `DataHelper` (the PHP class) is not part of this model. Its rules are modelled from the test table, with these simplifications:
  - A tag runs from `<` to the next `>`, or to the end when no `>` follows.
  - The contents of `script` and `style` elements, which `wp_strip_all_tags` also removes, are not modelled.
  - The character sets of `AN` and `ANS` are not modelled.
- DataHelper.ValidateAns: checks the same conditions as `validate_an`, because the extra symbols `ANS` allows are not part of this model.
- OrderMessage.Order.NewItems: returns a value, so the PHP aliasing is not modelled. In PHP, lines added to the returned list later show up in the order.
- The model assumes that a new, empty item list contributes no signature fields.
- Message.TamperedNotValid: assumes the keyed hash is injective, which a real HMAC guarantees only computationally. Even then the join is not injective: `Message.SeparatorShiftUndetected` shows a change the signature cannot notice. So tampering is proved detected for a change of one field (`Message.OneFieldTamperedNotValid`), not for every change of the field list. `Message.SignThenValid` likewise assumes equality comparison.
- Getters other than `get_signature` are not modelled, because they only read a field.
- `src/Gateway.php` is not part of this model. It is an early draft of the payment gateway. Its `start` (src/Gateway.php:76-104) calls `new Order()` without the three arguments `__construct` takes (src/Order.php:164). It assigns the order's private fields from outside, plus a `currency` the class does not declare. It returns right after a successful token fetch (src/Gateway.php:89-91), and otherwise announces the order, dumps the result and exits. Its `update_status` (src/Gateway.php:125-127) is empty.
- `tests/src/OrderItemTest.php` is not part of this model. It only checks that an order line returns its name (tests/src/OrderItemTest.php:26-34), and order lines are outside the order's own model.
- The doc comment of `set_merchant_order_id` (src/Order.php:194) says characters beyond the 24th are removed. The code (src/Order.php:200-204) validates the value and throws instead. The model follows the code.
- The same doc comment (src/Order.php:198) names the format `AN..max 10`. The code checks `ANS` with a limit of 24, and the model follows the code.
