/**
 * One review in the feed: the source caption, the internal tags an analyst attaches
 * to the review, and the comment box.
 */
module ReviewCard {
  import Seqs
  import Strings
  import opened UnifiedFiltersContext

  const SourceLabels: map<string, string> := map[
    "app-store" := "App Store",
    "google-play" := "Google Play",
    "banki-ru" := "Banki.ru",
    "irecommend" := "iRecommend",
    "social-vk" := "ВКонтакте",
    "social-telegram" := "Telegram",
    "reviews-site" := "Сайт отзывов"
  ]

  /** `getSourceLabel`: the caption of a known source id, any other id as it is. */
  function GetSourceLabel(source: string): (r: string)
    ensures source in SourceLabels ==> r == SourceLabels[source]
    ensures source !in SourceLabels ==> r == source
  {
    if source in SourceLabels && SourceLabels[source] != "" then SourceLabels[source] else source
  }

  /** The card's captions agree with the fallback source list of the filter store. */
  lemma SourceLabelsMatchFallback()
    ensures forall i :: 0 <= i < |FallbackSources| ==>
      GetSourceLabel(FallbackSources[i].value) == FallbackSources[i].title
    ensures forall id :: id in SourceLabels ==> exists i :: 0 <= i < |FallbackSources| && FallbackSources[i].value == id
  {
    assert FallbackSources[0].value == "app-store";
    assert FallbackSources[1].value == "google-play";
    assert FallbackSources[2].value == "banki-ru";
    assert FallbackSources[3].value == "irecommend";
    assert FallbackSources[4].value == "social-vk";
    assert FallbackSources[5].value == "social-telegram";
    assert FallbackSources[6].value == "reviews-site";
  }

  const InternalTagOptions: seq<string> := [
    "Передано в IT",
    "Кейс для маркетинга",
    "Требует ответа",
    "Эскалация в руководство",
    "Положительный кейс",
    "Обработано",
    "Требует доработки продукта",
    "Конкурентная разведка"
  ]

  class ReviewCardState {
    var showComment: bool
    var comment: string
    var newTag: string
    var localTags: seq<string>

    constructor (internalTags: seq<string>)
      ensures localTags == internalTags && !showComment && comment == "" && newTag == ""
    {
      showComment := false;
      comment := "";
      newTag := "";
      localTags := internalTags;
    }

    /** `addTag`: a non-empty tag not attached yet is appended; otherwise nothing changes. */
    method AddTag(tag: string)
      modifies this`localTags, this`newTag
      ensures tag != "" && tag !in old(localTags) ==> localTags == old(localTags) + [tag] && newTag == ""
      ensures tag == "" || tag in old(localTags) ==> localTags == old(localTags) && newTag == old(newTag)
      ensures Seqs.NoDups(old(localTags)) ==> Seqs.NoDups(localTags)
    {
      if tag != "" && tag !in localTags {
        localTags := localTags + [tag];
        newTag := "";
      }
    }

    /** `removeTag`: every copy goes, the other tags keep their order. */
    method RemoveTag(tag: string)
      modifies this`localTags
      ensures localTags == Seqs.Remove(old(localTags), tag)
      ensures tag !in localTags
      ensures Seqs.Subseq(localTags, old(localTags))
      ensures multiset(localTags) == multiset(old(localTags))[tag := 0]
    {
      Seqs.RemoveSubseq(localTags, tag);
      Seqs.RemoveCounts(localTags, tag);
      localTags := Seqs.Remove(localTags, tag);
    }

    /** The options offered in the "add tag" menu: never one already attached. */
    function TagOptions(): (r: seq<string>)
      reads this
      ensures forall t :: t in r <==> t in InternalTagOptions && t !in localTags
    {
      Seqs.RemoveAll(InternalTagOptions, localTags)
    }

    /** Typing in the comment box. */
    method SetComment(text: string)
      modifies this`comment
      ensures comment == text
    {
      comment := text;
    }

    /** The button that opens or closes the comment box. */
    method ToggleCommentBox()
      modifies this`showComment
      ensures showComment == !old(showComment)
    {
      showComment := !showComment;
    }

    /** `submitComment`: a comment that is not blank is cleared and the box closed. */
    method SubmitComment()
      modifies this`comment, this`showComment
      ensures Strings.Trim(old(comment)) != "" ==> comment == "" && !showComment
      ensures Strings.Trim(old(comment)) == "" ==> comment == old(comment) && showComment == old(showComment)
    {
      if Strings.Trim(comment) != "" {
        comment := "";
        showComment := false;
      }
    }
  }

  /** A comment made only of white space is never submitted. */
  lemma BlankCommentIsKept(comment: string)
    requires forall i :: 0 <= i < |comment| ==> Strings.IsWhitespace(comment[i])
    ensures Strings.Trim(comment) == ""
  {
    Strings.TrimEmptyIffBlank(comment);
  }
}
