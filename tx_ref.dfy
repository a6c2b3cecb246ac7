// Chapa transaction references: the format built when a payment is
// initialised (universities/views.py:586) and the two parsers that recover
// the user id from it (universities/views.py:809-812 in the webhook,
// manual_verify_payment.py:68-75 in the manual verification script).
module TransactionRef {
  import opened Common
  import opened Text

  const Prefix: string := "unifinder"

  /** `f"unifinder-{user.id}-{uuid}"`; the uuid is opaque text. */
  function Build(userId: nat, uuid: string): string
  {
    Prefix + "-" + NatToString(userId) + "-" + uuid
  }

  /** How the webhook reads a reference: a foreign format, a malformed id, or an id. */
  datatype WebhookRef = Foreign | BadId | UserId(id: int)

  /**
   * The webhook splits on '-' and, when there are at least two parts and
   * the first is "unifinder", converts the second with `int`; a
   * conversion failure is a ValueError.
   */
  function ParseWebhook(tx: string): (r: WebhookRef)
    ensures r.UserId? ==> StartsWith(tx, Prefix + "-")
    ensures r.Foreign? <==> !StartsWith(tx, Prefix + "-")
  {
    var parts := Split(tx, '-');
    SplitGuard(tx);
    if |parts| >= 2 && parts[0] == Prefix then
      match ParseInt(parts[1])
      case Some(n) => UserId(n)
      case None => BadId
    else Foreign
  }

  /**
   * The manual script: `tx_ref.startswith('unifinder-')`, then `int` of the
   * second '-' part; None when either step fails.
   */
  function ParseManual(tx: string): (r: Option<int>)
    ensures r.Some? ==> StartsWith(tx, Prefix + "-")
  {
    if StartsWith(tx, Prefix + "-") then
      var parts := Split(tx, '-');
      if |parts| >= 2 then ParseInt(parts[1]) else None
    else None
  }

  /**
   * The webhook's guard (at least two parts, the first "unifinder") and the
   * manual script's guard (`startswith('unifinder-')`) accept the same
   * references.
   */
  lemma SplitGuard(tx: string)
    ensures (|Split(tx, '-')| >= 2 && Split(tx, '-')[0] == Prefix) <==> StartsWith(tx, Prefix + "-")
  {
    var parts := Split(tx, '-');
    if |parts| >= 2 && parts[0] == Prefix {
      var k := IndexOf(tx, '-');
      assert k < |tx| && parts[0] == tx[..k];
      assert tx[..|Prefix| + 1] == Prefix + "-";
    }
    if StartsWith(tx, Prefix + "-") {
      assert '-' !in Prefix;
      assert tx == Prefix + ['-'] + tx[|Prefix| + 1..];
      SplitCons(Prefix, '-', tx[|Prefix| + 1..]);
    }
  }

  /** The two parsers agree on every reference the manual script can parse. */
  lemma ParsersAgree(tx: string)
    ensures ParseManual(tx).Some? ==> ParseWebhook(tx) == UserId(ParseManual(tx).value)
    ensures ParseWebhook(tx).BadId? ==> ParseManual(tx).None?
  {
    SplitGuard(tx);
  }

  lemma SplitFields(id: string, uuid: string)
    requires '-' !in id
    ensures Split(Prefix + ['-'] + (id + ['-'] + uuid), '-') == [Prefix, id] + Split(uuid, '-')
  {
    assert '-' !in Prefix;
    SplitCons(Prefix, '-', id + ['-'] + uuid);
    SplitCons(id, '-', uuid);
  }

  /** The parts of a generated reference: the prefix, the id, then the uuid's own parts. */
  lemma BuildParts(userId: nat, uuid: string)
    ensures Split(Build(userId, uuid), '-') == [Prefix, NatToString(userId)] + Split(uuid, '-')
    ensures StartsWith(Build(userId, uuid), Prefix + "-")
  {
    var id := NatToString(userId);
    assert '-' !in id by {
      forall i | 0 <= i < |id| ensures id[i] != '-' { assert IsDigit(id[i]); }
    }
    SplitFields(id, uuid);
    assert Build(userId, uuid) == Prefix + ['-'] + (id + ['-'] + uuid);
    assert Build(userId, uuid)[..|Prefix| + 1] == Prefix + "-";
  }

  /**
   * A generated reference gives back its user id to both parsers, although
   * the uuid part carries hyphens of its own.
   */
  lemma RoundTrip(userId: nat, uuid: string)
    ensures ParseWebhook(Build(userId, uuid)) == UserId(userId)
    ensures ParseManual(Build(userId, uuid)) == Some(userId)
  {
    BuildParts(userId, uuid);
    ParseNatToString(userId);
  }
}
