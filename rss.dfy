/**
 * The normalisation step of `fetchFeed` in main.go: once the RSS document
 * is decoded, the channel's title, link and description and every item's
 * title, link and description are replaced, in place, by their
 * HTML-unescaped text. The publication date, the number of items and their
 * order stay as decoded.
 *
 * HTML unescaping itself (Go's `html.UnescapeString`) is not modelled: it
 * is a parameter `unescape`, about which nothing is assumed.
 */
module Rss {

  /** `RSSItem`. */
  datatype Item = Item(title: string, link: string, description: string, pubDate: string)

  /** `RSSFeed`: the channel's text fields and its item slice. */
  class Feed {
    var title: string
    var link: string
    var description: string
    var items: array<Item>

    /** The feed as the XML decoder leaves it. */
    constructor (title: string, link: string, description: string, items: array<Item>)
      ensures this.title == title && this.link == link && this.description == description
      ensures this.items == items
    {
      this.title, this.link, this.description, this.items := title, link, description, items;
    }
  }

  /** One item after normalisation: its text fields unescaped, its date kept. */
  function UnescapeItem(unescape: string -> string, it: Item): (r: Item)
  {
    it.(title := unescape(it.title), link := unescape(it.link), description := unescape(it.description))
  }

  /** The item list after normalisation, item by item. */
  function UnescapeItems(unescape: string -> string, s: seq<Item>): (r: seq<Item>)
  {
    if s == [] then [] else [UnescapeItem(unescape, s[0])] + UnescapeItems(unescape, s[1..])
  }

  /**
   * Normalising keeps the number of items, and the item at each position
   * is the one decoded there with title, link and description unescaped and
   * the same publication date.
   */
  lemma {:induction false} UnescapeItemsAt(unescape: string -> string, s: seq<Item>, k: nat)
    requires k < |s|
    ensures |UnescapeItems(unescape, s)| == |s|
    ensures UnescapeItems(unescape, s)[k].title == unescape(s[k].title)
    ensures UnescapeItems(unescape, s)[k].link == unescape(s[k].link)
    ensures UnescapeItems(unescape, s)[k].description == unescape(s[k].description)
    ensures UnescapeItems(unescape, s)[k].pubDate == s[k].pubDate
  {
    if k > 0 {
      UnescapeItemsAt(unescape, s[1..], k - 1);
    } else if |s| > 1 {
      UnescapeItemsAt(unescape, s[1..], 0);
    }
  }

  /** Normalisation never changes the length of the item list (the empty list included). */
  lemma {:induction false} UnescapeItemsLength(unescape: string -> string, s: seq<Item>)
    ensures |UnescapeItems(unescape, s)| == |s|
  {
    if s != [] {
      UnescapeItemsLength(unescape, s[1..]);
    }
  }

  /**
   * The step of `fetchFeed` after XML decoding: unescape the channel's text fields, then
   * walk the item slice and overwrite each item's text fields in place.
   * The feed keeps the same item array; nothing else is touched.
   */
  method Normalize(feed: Feed, unescape: string -> string)
    modifies feed, feed.items
    ensures feed.items == old(feed.items)
    ensures feed.title == unescape(old(feed.title))
    ensures feed.link == unescape(old(feed.link))
    ensures feed.description == unescape(old(feed.description))
    ensures feed.items[..] == UnescapeItems(unescape, old(feed.items[..]))
  {
    feed.title := unescape(feed.title);
    feed.link := unescape(feed.link);
    feed.description := unescape(feed.description);
    var a := feed.items;
    ghost var was := a[..];
    for i := 0 to a.Length
      modifies a
      invariant forall k :: 0 <= k < i ==> a[k] == UnescapeItem(unescape, was[k])
      invariant forall k :: i <= k < a.Length ==> a[k] == was[k]
    {
      var item := a[i];
      a[i] := item.(title := unescape(item.title), link := unescape(item.link),
                    description := unescape(item.description));
    }
    UnescapeItemsLength(unescape, was);
    forall k | 0 <= k < a.Length
      ensures a[..][k] == UnescapeItems(unescape, was)[k]
    {
      UnescapeItemsAt(unescape, was, k);
    }
  }
}
