/** The `chat_links` table: which shared memory space ("link") a Telegram
    chat belongs to. A chat with a non-empty link resolves to the namespace
    `"link:" + link_id`; any other chat resolves to its private namespace
    `"tg:" + chat_id`. The table is keyed by the chat id rendered with
    `str`, so it is a map from that text to the link id. */
module Links {

  import opened PyText

  /** The primary key of a chat's row: `str(chat_id)`. */
  function Key(chatId: int): string {
    IntToString(chatId)
  }

  /** `get_namespace_for_chat` on a table with rows `links`. */
  function Namespace(links: map<string, string>, chatId: int): (ns: string)
    ensures StartsWith(ns, "link:") <==> Key(chatId) in links && links[Key(chatId)] != ""
    ensures StartsWith(ns, "link:") ==> ns == "link:" + links[Key(chatId)]
    ensures !StartsWith(ns, "link:") ==> ns == "tg:" + IntToString(chatId)
  {
    PrivateIsNotLinked(chatId);
    var key := Key(chatId);
    if key in links && links[key] != "" then "link:" + links[key]
    else "tg:" + IntToString(chatId)
  }

  predicate IsLowerHex(s: string) {
    forall i :: 0 <= i < |s| ==> '0' <= s[i] <= '9' || 'a' <= s[i] <= 'f'
  }

  /** `uuid.uuid4().hex`: 32 lower-case hexadecimal digits. */
  predicate IsUuidHex(s: string) {
    |s| == 32 && IsLowerHex(s)
  }

  /** The private namespace of a chat with no link row, or a row whose
      link id is empty (an empty string is falsy, so it counts as absent). */
  lemma ResolvePrivate(links: map<string, string>, chatId: int)
    requires Key(chatId) !in links || links[Key(chatId)] == ""
    ensures Namespace(links, chatId) == "tg:" + IntToString(chatId)
  {
  }

  lemma ResolveLinked(links: map<string, string>, chatId: int, code: string)
    requires Key(chatId) in links && links[Key(chatId)] == code && code != ""
    ensures Namespace(links, chatId) == "link:" + code
  {
  }

  /** Two chats without a link never share a namespace: `str` is
      injective on ints. */
  lemma PrivateNamespacesDistinct(links: map<string, string>, a: int, b: int)
    requires a != b
    requires !StartsWith(Namespace(links, a), "link:") && !StartsWith(Namespace(links, b), "link:")
    ensures Namespace(links, a) != Namespace(links, b)
  {
    if Namespace(links, a) == Namespace(links, b) {
      var na, nb := IntToString(a), IntToString(b);
      assert ("tg:" + na)[3..] == na;
      assert ("tg:" + nb)[3..] == nb;
      IntToStringInjective(a, b);
    }
  }

  lemma PrivateIsNotLinked(chatId: int)
    ensures !StartsWith("tg:" + IntToString(chatId), "link:")
  {
    assert ("tg:" + IntToString(chatId))[0] == 't';
  }

  /** A linked namespace and a private one never coincide. */
  lemma LinkedNeverPrivate(links: map<string, string>, a: int, b: int)
    requires StartsWith(Namespace(links, a), "link:")
    ensures Namespace(links, a) != "tg:" + IntToString(b)
  {
    assert Namespace(links, a)[0] == 'l';
  }

  /** Resolution looks only at the chat's own row: changing or deleting the
      row of one chat leaves every other chat's namespace as it was. */
  lemma OtherChatsUnaffected(links: map<string, string>, links': map<string, string>, chatId: int, other: int)
    requires other != chatId
    requires forall k :: k != Key(chatId) ==> (k in links <==> k in links') && (k in links ==> links[k] == links'[k])
    ensures Namespace(links', other) == Namespace(links, other)
  {
    if Key(other) == Key(chatId) {
      IntToStringInjective(other, chatId);
    }
  }

  /** Chats that joined the same non-empty code, one after the other, share
      one namespace: the mapping is many-to-one. */
  lemma SameCodeSameNamespace(links: map<string, string>, a: int, b: int, code: string)
    requires code != ""
    ensures var joined := links[Key(a) := code][Key(b) := code];
      Namespace(joined, a) == Namespace(joined, b) == "link:" + code
  {
  }

  /** The table as a mutable object, as the module's shared cursor sees it. */
  class LinkStore {
    var links: map<string, string>

    /** Opening `brain.db`: `CREATE TABLE IF NOT EXISTS` keeps whatever
        rows the table already holds, `existing` (none on a fresh file). */
    constructor (existing: map<string, string>)
      ensures links == existing
    {
      links := existing;
    }

    /** `get_namespace_for_chat`: a read-only lookup. */
    function Resolve(chatId: int): (ns: string)
      reads this
      ensures StartsWith(ns, "link:") || ns == "tg:" + IntToString(chatId)
      ensures StartsWith(ns, "link:") <==> Key(chatId) in links && links[Key(chatId)] != ""
    {
      Namespace(links, chatId)
    }

    /** `create_link_for_chat`: the code is the first ten characters of a
        fresh `uuid4().hex` (the randomness is the parameter `uuidHex`); the
        chat's row is inserted or replaced with it. */
    method CreateLink(chatId: int, uuidHex: string) returns (code: string)
      requires IsUuidHex(uuidHex)
      modifies this
      ensures |code| == 10 && IsLowerHex(code) && code == uuidHex[..10]
      ensures links == old(links)[Key(chatId) := code]
      ensures Resolve(chatId) == "link:" + code
    {
      code := uuidHex[..10];
      links := links[Key(chatId) := code];
    }

    /** `join_link_for_chat`: an unconditional insert-or-replace; the code is
        not checked against the codes ever issued. */
    method JoinLink(chatId: int, linkId: string)
      modifies this
      ensures links == old(links)[Key(chatId) := linkId]
      ensures Resolve(chatId) == if linkId == "" then "tg:" + IntToString(chatId) else "link:" + linkId
    {
      links := links[Key(chatId) := linkId];
    }

    /** `unlink_chat`: delete the chat's row if there is one. */
    method Unlink(chatId: int)
      modifies this
      ensures links == old(links) - {Key(chatId)}
      ensures Resolve(chatId) == "tg:" + IntToString(chatId)
    {
      links := links - {Key(chatId)};
    }
  }

  /** Unlinking twice is the same as unlinking once. */
  lemma UnlinkIdempotent(links: map<string, string>, chatId: int)
    ensures (links - {Key(chatId)}) - {Key(chatId)} == links - {Key(chatId)}
    ensures Namespace(links - {Key(chatId)}, chatId) == "tg:" + IntToString(chatId)
  {
  }
}
