/**
 * The Contact page: up to three contact cards (email, GitHub, LinkedIn) built
 * from the owner's personal information, and the copy-email button.
 */
module Contact {
  import opened Js
  import opened Seqs

  /** The parts of the personal-information record the page reads (`email`, `socials.github`, `socials.linkedin`). */
  datatype Info = Info(email: Option<string>, github: Option<string>, linkedin: Option<string>)

  datatype CardId = EmailCard | GitHubCard | LinkedInCard

  /** Position of a card in the fixed list. */
  function Rank(id: CardId): nat {
    match id
    case EmailCard => 0
    case GitHubCard => 1
    case LinkedInCard => 2
  }

  datatype Card = Card(
    id: CardId,
    title: string,
    description: string,
    href: Option<string>,
    value: Option<string>,
    showCopy: bool)

  /** `info?.email`, `info?.socials?.github`, `info?.socials?.linkedin`. */
  function EmailOf(info: Option<Info>): Option<string> {
    if info.Some? then info.value.email else None
  }

  function GitHubOf(info: Option<Info>): Option<string> {
    if info.Some? then info.value.github else None
  }

  function LinkedInOf(info: Option<Info>): Option<string> {
    if info.Some? then info.value.linkedin else None
  }

  /** The three cards before filtering, in their fixed order. */
  function AllCards(info: Option<Info>): (cards: seq<Card>)
    ensures |cards| == 3
    ensures forall i :: 0 <= i < 3 ==> Rank(cards[i].id) == i
  {
    var email := EmailOf(info);
    var github := OrNull(GitHubOf(info));
    var linkedin := OrNull(LinkedInOf(info));
    [ Card(EmailCard, "Email", "Send me a message",
           if Present(email) then Some("mailto:" + email.value) else None,
           OrNull(email), true),
      Card(GitHubCard, "GitHub", "View my code", github, github, false),
      Card(LinkedInCard, "LinkedIn", "Connect professionally", linkedin, linkedin, false) ]
  }

  /** The cards' ranks strictly increase along the list. */
  predicate Ranked(cards: seq<Card>) {
    forall i, j :: 0 <= i < j < |cards| ==> Rank(cards[i].id) < Rank(cards[j].id)
  }

  /** The filter condition `card => card.value`: the card has a non-empty value. */
  predicate HasValue(c: Card) {
    Present(c.value)
  }

  /** A card on its own survives the filter exactly when it has a value. */
  function Kept(c: Card): seq<Card> {
    if HasValue(c) then [c] else []
  }

  /** A single card is kept exactly when it has a value. */
  lemma KeepOne(c: Card)
    ensures Filter(HasValue, [c]) == Kept(c)
  {
    assert [c][1..] == [];
  }

  /** The filtered three-card list, written out. */
  lemma KeepThree(a: Card, b: Card, c: Card)
    ensures Filter(HasValue, [a, b, c]) == Kept(a) + Kept(b) + Kept(c)
  {
    assert [a, b, c] == [a] + [b] + [c];
    FilterAppend(HasValue, [a] + [b], [c]);
    FilterAppend(HasValue, [a], [b]);
    KeepOne(a);
    KeepOne(b);
    KeepOne(c);
  }

  /** A card is in a filtered three-card list exactly when it is one of the three and has a value. */
  lemma InKeptThree(x: Card, a: Card, b: Card, c: Card)
    ensures x in Kept(a) + Kept(b) + Kept(c) <==>
      (x == a && HasValue(a)) || (x == b && HasValue(b)) || (x == c && HasValue(c))
  {
  }

  /**
   * The card list: only cards with a value, at most three, in the order
   * email, GitHub, LinkedIn.
   */
  function ContactCards(info: Option<Info>): (cards: seq<Card>)
    ensures |cards| <= 3
    ensures Ranked(cards)
    ensures forall c :: c in cards ==> Present(c.value)
  {
    var all := AllCards(info);
    KeepThree(all[0], all[1], all[2]);
    assert all == [all[0], all[1], all[2]];
    Filter(HasValue, all)
  }

  /**
   * Each kind of card is present exactly when its value is non-empty; the
   * email card links to `mailto:` plus the address, the other two link to
   * their value; only the email card can be copied.
   */
  lemma ContactCardsContents(info: Option<Info>)
    ensures var cards := ContactCards(info);
      && ((exists c :: c in cards && c.id == EmailCard) <==> Present(EmailOf(info)))
      && ((exists c :: c in cards && c.id == GitHubCard) <==> Present(GitHubOf(info)))
      && ((exists c :: c in cards && c.id == LinkedInCard) <==> Present(LinkedInOf(info)))
      && (forall c :: c in cards && c.id == EmailCard ==>
            c.value == EmailOf(info) && c.href == Some("mailto:" + c.value.value))
      && (forall c :: c in cards && c.id == GitHubCard ==> c.value == GitHubOf(info))
      && (forall c :: c in cards && c.id == LinkedInCard ==> c.value == LinkedInOf(info))
      && (forall c :: c in cards && c.id != EmailCard ==> c.href == c.value)
      && (forall c :: c in cards ==> (c.showCopy <==> c.id == EmailCard))
  {
    var all := AllCards(info);
    ContactCardsMembers(info);
    assert HasValue(all[0]) <==> Present(EmailOf(info));
    assert HasValue(all[1]) <==> Present(GitHubOf(info));
    assert HasValue(all[2]) <==> Present(LinkedInOf(info));
  }

  /** The shown cards are exactly those of the three that have a value. */
  lemma ContactCardsMembers(info: Option<Info>)
    ensures var all := AllCards(info);
      forall c :: c in ContactCards(info) <==>
        (c == all[0] && HasValue(all[0])) || (c == all[1] && HasValue(all[1])) || (c == all[2] && HasValue(all[2]))
  {
    var all := AllCards(info);
    var e, g, l := all[0], all[1], all[2];
    KeepThree(e, g, l);
    assert all == [e, g, l];
    forall c
      ensures c in ContactCards(info) <==>
        (c == e && HasValue(e)) || (c == g && HasValue(g)) || (c == l && HasValue(l))
    {
      InKeptThree(c, e, g, l);
    }
  }

  /** With every value present, all three cards show. */
  lemma AllThreeCards(info: Info)
    requires Present(info.email) && Present(info.github) && Present(info.linkedin)
    ensures |ContactCards(Some(info))| == 3
  {
    var all := AllCards(Some(info));
    KeepThree(all[0], all[1], all[2]);
    assert all == [all[0], all[1], all[2]];
  }

  /** Without personal information there are no cards. */
  lemma NoInfoNoCards()
    ensures ContactCards(None) == []
  {
    var all := AllCards(None);
    KeepThree(all[0], all[1], all[2]);
    assert all == [all[0], all[1], all[2]];
  }

  /** What the page shows once loading is over. */
  datatype ContactView =
    | LoadingView
    | ErrorView(message: string)
    | Cards(cards: seq<Card>)
    | NoDetails

  const ErrorPrefix: string := "Could not load contact info. "

  /**
   * The view: loading first, then a truthy error, then the card grid, or the
   * "No contact details" note exactly when the card list is empty.
   */
  function ContactViewOf(loading: bool, error: Option<string>, info: Option<Info>): (view: ContactView)
    ensures view.LoadingView? <==> loading
    ensures view.ErrorView? <==> !loading && Present(error)
    ensures view.ErrorView? ==> view.message == ErrorPrefix + error.value
    ensures view.NoDetails? <==> !loading && !Present(error) && ContactCards(info) == []
    ensures view.Cards? ==> view.cards == ContactCards(info) && view.cards != []
  {
    if loading then LoadingView
    else if Present(error) then ErrorView(ErrorPrefix + error.value)
    else
      var cards := ContactCards(info);
      if |cards| == 0 then NoDetails else Cards(cards)
  }

  const LoadFailed: string := "Failed to load"

  /** The page's state: the information, the loading flag, the error and the copied flag. */
  class ContactPage {
    var info: Option<Info>
    var loading: bool
    var error: Option<string>
    var copied: bool

    /** `copied` can only be set when there is an address to copy. */
    ghost predicate Valid()
      reads this
    {
      copied ==> Present(EmailOf(info))
    }

    constructor ()
      ensures Valid()
      ensures info == None && loading && error == None && !copied
    {
      info := None;
      loading := true;
      error := None;
      copied := false;
    }

    /**
     * What the page shows now: the loading text exactly while loading, and
     * otherwise only cards that carry a value, at most three of them.
     */
    function View(): (view: ContactView)
      reads this
      ensures view.LoadingView? <==> loading
      ensures view.ErrorView? <==> !loading && Present(error)
      ensures view.Cards? ==> 0 < |view.cards| <= 3 && forall c :: c in view.cards ==> HasValue(c)
    {
      ContactViewOf(loading, error, info)
    }

    /** The request resolved with `res.data`; then loading ends. */
    method Resolve(data: Option<Info>)
      requires Valid() && !copied
      modifies this
      ensures Valid()
      ensures info == data && !loading && error == old(error) && !copied
    {
      info := data;
      loading := false;
    }

    /** The request was rejected with `err.message`; then loading ends. */
    method Reject(message: Option<string>)
      requires Valid()
      modifies this
      ensures Valid()
      ensures error == Some(OrElse(message, LoadFailed)) && !loading
      ensures info == old(info) && copied == old(copied)
      ensures View().ErrorView?
    {
      error := Some(OrElse(message, LoadFailed));
      loading := false;
    }

    /**
     * `handleCopyEmail`: without an address nothing happens; with one,
     * `copied` is set when the clipboard accepted the text and left alone
     * when it refused.
     */
    method HandleCopyEmail(writeSucceeded: bool)
      requires Valid()
      modifies this
      ensures Valid()
      ensures info == old(info) && loading == old(loading) && error == old(error)
      ensures !Present(EmailOf(info)) ==> copied == old(copied)
      ensures Present(EmailOf(info)) ==> copied == (old(copied) || writeSucceeded)
    {
      if !(info.Some? && Present(info.value.email)) {
        return;
      }
      if writeSucceeded {
        copied := true;
      }
    }

    /** The two-second timer that follows a successful copy. */
    method CopiedTimeout()
      requires Valid()
      modifies this
      ensures Valid()
      ensures !copied && info == old(info) && loading == old(loading) && error == old(error)
    {
      copied := false;
    }
  }
}
