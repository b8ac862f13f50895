/**
  The request checks of user_wallet/serializers.py for an administrator's
  credit or debit of a wallet.
*/
module WalletForms {
  import opened Common
  import opened Ledger

  /** Why a request is refused. */
  datatype FormError = AmountBelowMinimum | DescriptionBlank | DescriptionTooLong | WalletMissing | BalanceTooLow

  /**
    The messages the serializers raise themselves; the field checks
    (`min_value=1`, a non-blank description, `max_length=255`) answer with the
    framework's own text.
    Because the field minimum rejects every amount below 1 first,
    `validate_amount`'s "Amount must be positive" is never reached.
  */
  function Message(e: FormError): (m: Option<string>)
    ensures m.Some? <==> e.WalletMissing? || e.BalanceTooLow?
  {
    match e
    case AmountBelowMinimum => None
    case DescriptionBlank => None
    case DescriptionTooLong => None
    case WalletMissing => Some("User does not have a wallet")
    case BalanceTooLow => Some("Insufficient balance")
  }

  /** What a request carries after validation. */
  datatype Validated = Validated(amount: int, description: string, wallet: Option<Account>)

  datatype Outcome = Accepted(data: Validated) | Rejected(error: FormError)

  /**
    The field checks both forms share, with the form's default description.
    The framework's `CharField` trims a given description before anything
    else: one that is only whitespace is blank, and the 255-character limit
    applies to the trimmed text, which is what the form keeps. A missing
    description takes the default, unchecked.
  */
  function Fields(amount: int, description: Option<string>, default: string): (r: Outcome)
    requires |default| <= 255
    ensures r.Accepted? <==> amount >= 1 && (description.None? || 1 <= |Strip(description.value)| <= 255)
    ensures amount < 1 ==> r == Rejected(AmountBelowMinimum)
    ensures r.Rejected? && amount >= 1 ==>
      description.Some? && r.error == (if Strip(description.value) == [] then DescriptionBlank else DescriptionTooLong)
    ensures r.Accepted? ==> r.data == Validated(amount, if description.None? then default else Strip(description.value), None)
  {
    if amount < 1 then Rejected(AmountBelowMinimum)
    else if description.None? then Accepted(Validated(amount, default, None))
    else
      var text := Strip(description.value);
      if text == [] then Rejected(DescriptionBlank)
      else if |text| > 255 then Rejected(DescriptionTooLong)
      else Accepted(Validated(amount, text, None))
  }

  /**
    A description the form accepts is kept trimmed, within the limit, and is
    accepted again unchanged: sending the stored text back validates to the same data.
  */
  lemma AcceptedDescriptionTrimmed(amount: int, description: string, default: string)
    requires |default| <= 255 && Fields(amount, Some(description), default).Accepted?
    ensures var t := Fields(amount, Some(description), default).data.description;
      && 1 <= |t| <= 255 && !IsSpace(t[0]) && !IsSpace(t[|t| - 1])
      && Fields(amount, Some(t), default) == Fields(amount, Some(description), default)
  {
    StripIdempotent(description);
  }

  /**
    Whitespace after a description does not count toward the limit: a
    description of at most 255 characters with any amount of whitespace
    after it is accepted as the description alone.
  */
  lemma PaddedDescriptionAccepted(amount: int, d: string, pad: string)
    requires amount >= 1 && 1 <= |d| <= 255 && !IsSpace(d[0]) && !IsSpace(d[|d| - 1])
    requires forall k :: 0 <= k < |pad| ==> IsSpace(pad[k])
    ensures ValidateAdd(amount, Some(d + pad)) == Accepted(Validated(amount, d, None))
  {
    StripPadded(d, pad);
  }

  /** `AddBalanceSerializer` (user_wallet/serializers.py:29-36): a positive amount, "Admin Added" when no description is given. */
  function ValidateAdd(amount: int, description: Option<string>): (r: Outcome)
    ensures r.Accepted? <==> amount >= 1 && (description.None? || 1 <= |Strip(description.value)| <= 255)
    ensures r.Accepted? ==> r.data.description == (if description.None? then "Admin Added" else Strip(description.value))
    ensures r.Accepted? ==> r.data.amount == amount
  {
    Fields(amount, description, "Admin Added")
  }

  /**
    `DeductBalanceSerializer` (user_wallet/serializers.py:39-61): the field
    checks, then the user must have a wallet holding at least the amount;
    that wallet goes along with the validated data.
  */
  function ValidateDeduct(amount: int, description: Option<string>, wallet: Option<Account>): (r: Outcome)
    ensures r.Accepted? <==> && amount >= 1 && (description.None? || 1 <= |Strip(description.value)| <= 255)
                             && wallet.Some? && wallet.value.balance >= amount
    ensures r == Rejected(WalletMissing) <==> Fields(amount, description, "Admin Deducted").Accepted? && wallet.None?
    ensures r == Rejected(BalanceTooLow) <==> Fields(amount, description, "Admin Deducted").Accepted? && wallet.Some? && wallet.value.balance < amount
    ensures r.Accepted? ==> r.data.amount == amount && r.data.wallet == wallet
    ensures r.Accepted? ==> r.data.description == (if description.None? then "Admin Deducted" else Strip(description.value))
  {
    match Fields(amount, description, "Admin Deducted")
    case Rejected(e) => Rejected(e)
    case Accepted(data) =>
      if wallet.None? then Rejected(WalletMissing)
      else if wallet.value.balance < amount then Rejected(BalanceTooLow)
      else Accepted(data.(wallet := wallet))
  }

  /**
    A validated debit never reaches the `ValueError` of `deduct_balance`:
    it lowers the balance by the amount and leaves it non-negative.
  */
  lemma ValidatedDeductSucceeds(amount: int, description: Option<string>, wallet: Option<Account>, kind: string)
    requires ValidateDeduct(amount, description, wallet).Accepted?
    ensures var v := ValidateDeduct(amount, description, wallet).data;
      && Debit(wallet.value, amount, kind, v.description, None).Some?
      && Debit(wallet.value, amount, kind, v.description, None).value.balance == wallet.value.balance - amount >= 0
  {
  }

  /** Any amount either form accepts is positive, so a credit raises and a debit lowers the balance. */
  lemma AcceptedAmountsMoveBalance(a: Account, amount: int, description: Option<string>)
    requires ValidateAdd(amount, description).Accepted?
    ensures Credit(a, amount, "admin_add", ValidateAdd(amount, description).data.description, None).balance > a.balance
  {
  }
}
