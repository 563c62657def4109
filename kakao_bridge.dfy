/**
 * The Kakao bridge: the feed message templates for sharing a design and for a two-option vote,
 * and the placeholder calls that stand in for the Kakao SDK and the vote backend. SDK loading and
 * the console output are not modelled.
 */
module KakaoBridge {
  import opened Wrappers

  datatype Link = Link(webUrl: string, mobileWebUrl: Option<string>)

  datatype ShareContent = ShareContent(title: string, description: string, imageUrl: string, link: Link)

  datatype VoteOption = VoteOption(title: string, imageUrl: string)

  datatype VoteContent = VoteContent(title: string, optionA: VoteOption, optionB: VoteOption)

  datatype VoteResult = VoteResult(optionA: int, optionB: int, voters: seq<string>)

  /** The `type` tag together with the content it announces. */
  datatype MessageRequest = Share(share: ShareContent) | Vote(vote: VoteContent)

  datatype Content = Content(title: string, description: string, imageUrl: string, link: Link)

  datatype Button = Button(title: string, link: Link)

  datatype Template = Template(objectType: string, content: Content, buttons: seq<Button>)

  const SiteUrl: string := "https://kakao-homes.com"
  const VoteQuestion: string := "어떤 디자인이 더 마음에 드시나요?"
  const DetailsLabel: string := "자세히 보기"

  /** createMessageTemplate */
  function CreateMessageTemplate(request: MessageRequest): (t: Template)
    ensures t.objectType == "feed"
    ensures request.Share? ==>
      t.buttons == [Button(DetailsLabel, request.share.link)] && t.content.link == request.share.link
    ensures request.Vote? ==>
      t.content.description == VoteQuestion && t.content.imageUrl == request.vote.optionA.imageUrl &&
      t.content.link == Link(SiteUrl, Some(SiteUrl)) &&
      t.buttons == [Button("A안 투표", Link(SiteUrl + "/vote/a", None)),
                    Button("B안 투표", Link(SiteUrl + "/vote/b", None))]
  {
    match request
    case Share(c) =>
      Template("feed", Content(c.title, c.description, c.imageUrl, c.link), [Button(DetailsLabel, c.link)])
    case Vote(v) =>
      Template("feed", Content(v.title, VoteQuestion, v.optionA.imageUrl, Link(SiteUrl, Some(SiteUrl))),
        [Button("A안 투표", Link(SiteUrl + "/vote/a", None)), Button("B안 투표", Link(SiteUrl + "/vote/b", None))])
  }

  /** Reads the shared content back out of a feed template. */
  function ShareContentOf(t: Template): ShareContent {
    ShareContent(t.content.title, t.content.description, t.content.imageUrl, t.content.link)
  }

  /** The share template copies its content verbatim: it can be read back exactly. */
  lemma ShareTemplateRoundTrip(c: ShareContent)
    ensures ShareContentOf(CreateMessageTemplate(Share(c))) == c
  {
  }

  /** Two votes give the same template exactly when their titles and the first option's images
      agree: the option titles and the second image do not reach the message. */
  lemma VoteTemplateKeeps(a: VoteContent, b: VoteContent)
    ensures CreateMessageTemplate(Vote(a)) == CreateMessageTemplate(Vote(b)) <==>
      a.title == b.title && a.optionA.imageUrl == b.optionA.imageUrl
  {
    if CreateMessageTemplate(Vote(a)) == CreateMessageTemplate(Vote(b)) {
      assert CreateMessageTemplate(Vote(a)).content.title == a.title;
    }
  }

  /** shareToKakao: reports success whatever the content. */
  function ShareToKakao(content: ShareContent): (shared: bool)
    ensures shared
  {
    true
  }

  /** shareVoteToKakao: reports success whatever the content. */
  function ShareVoteToKakao(content: VoteContent): (shared: bool)
    ensures shared
  {
    true
  }

  /** getVoteResults: the same tally for every vote. */
  function GetVoteResults(voteId: string): (r: VoteResult)
    ensures r.optionA == 12 && r.optionB == 8 && |r.voters| == 5
  {
    VoteResult(12, 8, ["지민", "수아", "현우", "민서", "지호"])
  }
}
