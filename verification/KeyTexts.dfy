/** The texts of the idempotency keys (internal/billing/lookup.go and service.go). */
module KeyTexts {
  import opened Ledger

  /** What a key's text starts with, in the wallet of `client`. */
  function Prefix(client: string, k: Key): string {
    match k
    case HoldSms(_) => "hold:sms:"
    case DebitSms(_) => "debit:sms:"
    case ReleaseSms(_) => "release:sms:"
    case HoldJob(_) => "hold:lookup_job:"
    case DebitItem(_) => "debit:lookup_item:"
    case ReleaseItem(_) => "release:lookup_item:"
    case RemainderJob(_) => "release-remainder:lookup_job:"
    case TopUpKey(_) => "topup:" + client + ":"
    case AdjustKey(_) => "adjustment:" + client + ":"
  }

  /** The text stored in idempotency_key; `show` prints a uuid, `note` a caller's own text. */
  function KeyText(client: string, show: Id -> string, note: Id -> string, k: Key): string {
    Prefix(client, k) + if k.TopUpKey? || k.AdjustKey? then note(k.id) else show(k.id)
  }

  /** No two key builders ever produce the same text, whatever the ids and texts are. */
  lemma KeyTextInjective(client: string, show: Id -> string, note: Id -> string, a: Key, b: Key)
    requires forall x, y :: show(x) == show(y) ==> x == y
    requires forall x, y :: note(x) == note(y) ==> x == y
    requires KeyText(client, show, note, a) == KeyText(client, show, note, b)
    ensures a == b
  {
    var s := KeyText(client, show, note, a);
    Signature(client, a, s);
    Signature(client, b, s);
    assert Prefix(client, a) == Prefix(client, b);
    var n := |Prefix(client, a)|;
    assert s[n..] == if a.TopUpKey? || a.AdjustKey? then note(a.id) else show(a.id);
    assert s[n..] == if b.TopUpKey? || b.AdjustKey? then note(b.id) else show(b.id);
  }

  /** The builder can be read off five positions of the text. */
  lemma Signature(client: string, k: Key, s: string)
    requires Prefix(client, k) <= s
    ensures |s| >= 6
    ensures s[0] == (match k
                     case HoldSms(_) => 'h' case HoldJob(_) => 'h'
                     case DebitSms(_) => 'd' case DebitItem(_) => 'd'
                     case TopUpKey(_) => 't' case AdjustKey(_) => 'a'
                     case _ => 'r')
    ensures k.HoldSms? ==> s[5] == 's'
    ensures k.HoldJob? ==> s[5] == 'l'
    ensures k.DebitSms? ==> |s| > 6 && s[6] == 's'
    ensures k.DebitItem? ==> |s| > 6 && s[6] == 'l'
    ensures k.ReleaseSms? ==> |s| > 8 && s[7] == ':' && s[8] == 's'
    ensures k.ReleaseItem? ==> |s| > 8 && s[7] == ':' && s[8] == 'l'
    ensures k.RemainderJob? ==> |s| > 8 && s[7] == '-'
  {
    var p := Prefix(client, k);
    assert forall i | 0 <= i < |p| :: s[i] == p[i];
  }

  /** The texts themselves, as rows already written carry them. */
  lemma KeyTextsWritten(client: string, show: Id -> string, note: Id -> string, i: Id)
    ensures KeyText(client, show, note, HoldSms(i)) == "hold:sms:" + show(i)
    ensures KeyText(client, show, note, DebitSms(i)) == "debit:sms:" + show(i)
    ensures KeyText(client, show, note, ReleaseSms(i)) == "release:sms:" + show(i)
    ensures KeyText(client, show, note, HoldJob(i)) == "hold:lookup_job:" + show(i)
    ensures KeyText(client, show, note, DebitItem(i)) == "debit:lookup_item:" + show(i)
    ensures KeyText(client, show, note, ReleaseItem(i)) == "release:lookup_item:" + show(i)
    ensures KeyText(client, show, note, RemainderJob(i)) == "release-remainder:lookup_job:" + show(i)
    ensures KeyText(client, show, note, TopUpKey(i)) == "topup:" + client + ":" + note(i)
    ensures KeyText(client, show, note, AdjustKey(i)) == "adjustment:" + client + ":" + note(i)
  {
  }
}
