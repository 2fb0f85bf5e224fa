/** The edit-link modal: its form state seeded from the link, the
    one-tag-at-a-time tag input and the submit validation. */
module EditLinkForm {
  import opened Wrappers
  import opened TagLists

  /** The fields of the link being edited, as the client holds them; any of
      them may be missing. */
  datatype LinkView = LinkView(url: string, title: Option<string>, notes: Option<string>, tags: Option<seq<Tag>>)

  /** A submission that passed validation: what `onUpdate` receives. */
  datatype Update = Update(title: string, notes: string, tags: seq<Tag>)

  /** The keys the tag input reacts to. */
  datatype Key = Enter | OtherKey

  const TitleRequired := "Title is required"

  /** The form's state; each React setter is a field write. */
  class Form {
    var title: string
    var notes: string
    var tags: seq<Tag>
    var currentTag: string
    var isLoading: bool
    var error: Option<string>

    /** `link.title || ''`, `link.notes || ''`, `link.tags || []`, and an
        empty tag input. */
    constructor (link: LinkView)
      ensures title == link.title.GetOr("") && notes == link.notes.GetOr("")
      ensures tags == link.tags.GetOr([]) && currentTag == ""
      ensures !isLoading && error == None
    {
      title := if link.title.Some? then link.title.value else "";
      notes := if link.notes.Some? then link.notes.value else "";
      tags := if link.tags.Some? then link.tags.value else [];
      currentTag := "";
      isLoading, error := false, None;
    }

    method SetTitle(v: string)
      modifies this`title
      ensures title == v
    {
      title := v;
    }

    method SetNotes(v: string)
      modifies this`notes
      ensures notes == v
    {
      notes := v;
    }

    method SetCurrentTag(v: string)
      modifies this`currentTag
      ensures currentTag == v
    {
      currentTag := v;
    }

    /** `addTag`: the typed text, as typed (neither trimmed nor lower-cased),
        is selected and the input cleared, but only when it is non-empty and
        not yet selected; otherwise nothing changes. Keeps the selected tags
        free of repeats. */
    method AddTag()
      modifies this`tags, this`currentTag
      ensures old(currentTag) != "" && old(currentTag) !in old(tags) ==>
        tags == old(tags) + [old(currentTag)] && currentTag == ""
      ensures old(currentTag) == "" || old(currentTag) in old(tags) ==>
        tags == old(tags) && currentTag == old(currentTag)
      ensures Distinct(old(tags)) ==> Distinct(tags)
    {
      if currentTag != "" && currentTag !in tags {
        tags := tags + [currentTag];
        currentTag := "";
      }
    }

    /** Enter in the tag input adds the typed tag; other keys do nothing. */
    method KeyDown(key: Key)
      modifies this`tags, this`currentTag
      ensures key == Enter && old(currentTag) != "" && old(currentTag) !in old(tags) ==>
        tags == old(tags) + [old(currentTag)] && currentTag == ""
      ensures key == OtherKey || old(currentTag) == "" || old(currentTag) in old(tags) ==>
        tags == old(tags) && currentTag == old(currentTag)
    {
      if key == Enter {
        AddTag();
      }
    }

    /** The × on a selected tag removes every occurrence of it. */
    method RemoveTag(tag: Tag)
      modifies this`tags
      ensures tags == RemoveAll(old(tags), tag)
      ensures Distinct(old(tags)) ==> Distinct(tags)
    {
      if Distinct(tags) {
        RemoveAllDistinct(tags, tag);
      }
      tags := RemoveAll(tags, tag);
    }

    /** Clicking a suggestion selects it unless it already is. */
    method SuggestionClick(tag: Tag)
      modifies this`tags
      ensures tags == AppendIfAbsent(old(tags), tag)
      ensures Distinct(old(tags)) ==> Distinct(tags)
    {
      if Distinct(tags) {
        AppendIfAbsentDistinct(tags, tag);
      }
      if tag !in tags {
        tags := tags + [tag];
      }
    }

    /** `handleSubmit`: an empty title sets its message and submits
        nothing. Otherwise loading starts, the error is cleared and the
        title, notes and tags go to `onUpdate`. */
    method Submit() returns (update: Option<Update>)
      modifies this`isLoading, this`error
      ensures title == "" ==>
        update == None && error == Some(TitleRequired) && isLoading == old(isLoading)
      ensures title != "" ==>
        update == Some(Update(title, notes, tags)) && isLoading && error == None
    {
      if title == "" {
        error := Some(TitleRequired);
        return None;
      }
      isLoading := true;
      error := None;
      update := Some(Update(title, notes, tags));
    }

    /** After `onUpdate` settles: a thrown message becomes the error, and
        loading always stops. */
    method FinishSubmit(thrown: Option<string>)
      modifies this`isLoading, this`error
      ensures !isLoading
      ensures error == if thrown.Some? then thrown else old(error)
    {
      if thrown.Some? {
        error := thrown;
      }
      isLoading := false;
    }
  }
}
