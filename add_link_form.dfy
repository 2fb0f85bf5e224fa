/** The add-link modal: its form state, the comma-separated tag input, the
    suggestion list and the submit validation. */
module AddLinkForm {
  import opened Wrappers
  import opened Text
  import opened TagLists

  /** `tag.trim().toLowerCase()` on one comma-separated field. */
  function Normalize(field: string): Tag {
    Lower(Trim(field))
  }

  /** A normalised field is lower-case, has no white space at either end,
      is empty exactly when the field is all white space, and holds a comma
      only if the field does. */
  lemma NormalizeFacts(field: string)
    ensures IsLower(Normalize(field))
    ensures Normalize(field) == [] || (!IsSpace(Normalize(field)[0]) && !IsSpace(Normalize(field)[|Normalize(field)| - 1]))
    ensures Normalize(field) == [] <==> AllSpace(field)
    ensures ',' in Normalize(field) ==> ',' in field
  {
    var r := Trim(field);
    assert IsLower(Normalize(field)) by {
      LowerFacts(r);
    }
    assert Normalize(field) == [] <==> AllSpace(field) by {
      TrimEmptyIffAllSpace(field);
    }
    assert Normalize(field) == [] || (!IsSpace(Normalize(field)[0]) && !IsSpace(Normalize(field)[|Normalize(field)| - 1])) by {
      if r != [] {
        assert !IsSpace(r[0]) && !IsSpace(r[|r| - 1]);
        assert Normalize(field)[0] == LowerChar(r[0]);
        assert Normalize(field)[|r| - 1] == LowerChar(r[|r| - 1]);
      }
    }
    assert ',' in Normalize(field) ==> ',' in field by {
      var i :| TrimmedAt(field, r, i);
      if ',' in Normalize(field) {
        var k :| 0 <= k < |r| && Normalize(field)[k] == ',';
        assert LowerChar(r[k]) == ',';
        assert r[k] == field[i + k];
      }
    }
  }

  /** `.map(tag => tag.trim().toLowerCase()).filter(tag => tag.length > 0)`. */
  function NormalizeAll(fields: seq<string>): seq<Tag> {
    if fields == [] then []
    else (if |Normalize(fields[0])| > 0 then [Normalize(fields[0])] else []) + NormalizeAll(fields[1..])
  }

  /** The kept tokens are exactly the non-empty normalised fields. */
  lemma {:induction false} NormalizeAllSpec(fields: seq<string>)
    ensures forall t :: t in NormalizeAll(fields) <==> t != [] && exists f :: f in fields && t == Normalize(f)
  {
    if fields != [] {
      NormalizeAllSpec(fields[1..]);
      assert forall f :: f in fields <==> f == fields[0] || f in fields[1..];
    }
  }

  /** The tokens of a tag input: its comma-separated fields, trimmed,
      lower-cased, empty ones dropped. */
  function Tokens(input: string): seq<Tag> {
    NormalizeAll(Split(input, ','))
  }

  /** Every token is non-empty, lower-case, free of surrounding white space
      and of commas, and is the normalised form of one comma-separated
      field of the input; every field that is not blank yields a token. */
  lemma TokensWellFormed(input: string)
    ensures forall t :: t in Tokens(input) ==>
      && t != [] && IsLower(t) && !IsSpace(t[0]) && !IsSpace(t[|t| - 1]) && ',' !in t
      && exists f :: f in Split(input, ',') && t == Normalize(f)
    ensures forall f :: f in Split(input, ',') && !AllSpace(f) ==> Normalize(f) in Tokens(input)
  {
    SplitPartsFree(input, ',');
    NormalizeAllSpec(Split(input, ','));
    forall f | f in Split(input, ',') ensures Normalize(f) == [] <==> AllSpace(f) {
      NormalizeFacts(f);
    }
    forall t | t in Tokens(input)
      ensures IsLower(t) && !IsSpace(t[0]) && !IsSpace(t[|t| - 1]) && ',' !in t
    {
      var f :| f in Split(input, ',') && t == Normalize(f);
      NormalizeFacts(f);
    }
  }

  /** `newTags.filter(tag => !tags.includes(tag))`: the tokens not already
      selected. A token repeated within the input is kept each time. */
  function NewTags(selected: seq<Tag>, input: string): seq<Tag> {
    Unselected(Tokens(input), selected)
  }

  /** The new tags are the input's tokens that are not yet selected, in
      input order, each as often as it occurs in the input. */
  lemma NewTagsSpec(selected: seq<Tag>, input: string)
    ensures forall t :: t in NewTags(selected, input) <==> t in Tokens(input) && t !in selected
    ensures IsSubsequence(NewTags(selected, input), Tokens(input))
    ensures forall t :: t !in selected ==> multiset(NewTags(selected, input))[t] == multiset(Tokens(input))[t]
  {
    UnselectedOrdered(Tokens(input), selected);
  }

  lemma {:induction false} NormalizeAllAppend(xs: seq<string>, ys: seq<string>)
    ensures NormalizeAll(xs + ys) == NormalizeAll(xs) + NormalizeAll(ys)
  {
    if xs != [] {
      var head := if |Normalize(xs[0])| > 0 then [Normalize(xs[0])] else [];
      assert NormalizeAll(xs + ys) == head + NormalizeAll(xs[1..] + ys) by {
        assert (xs + ys)[0] == xs[0];
        assert (xs + ys)[1..] == xs[1..] + ys;
      }
      NormalizeAllAppend(xs[1..], ys);
    } else {
      assert xs + ys == ys;
    }
  }

  /** A field without a comma yields its normalised form as its only token,
      or no token when it is blank. */
  lemma TokensOfField(field: string)
    requires ',' !in field
    ensures Tokens(field) == if AllSpace(field) then [] else [Normalize(field)]
  {
    SplitNone(field, ',');
    NormalizeFacts(field);
    assert [field][1..] == [];
    assert NormalizeAll([field]) == (if |Normalize(field)| > 0 then [Normalize(field)] else []) + NormalizeAll([]);
  }

  /** The tokens of fields joined by a comma are the tokens of each, in
      order. */
  lemma TokensAppend(a: string, b: string)
    requires ',' !in a
    ensures Tokens(a + [','] + b) == Tokens(a) + Tokens(b)
  {
    SplitAt(a, b, ',');
    SplitNone(a, ',');
    NormalizeAllAppend([a], Split(b, ','));
  }

  /** A word padded with white space on either side normalises to the
      lower-cased word: `'  Redux  '` gives `redux`. */
  lemma NormalizeWord(pad: string, word: string, pad': string)
    requires AllSpace(pad) && AllSpace(pad')
    requires word != [] && !IsSpace(word[0]) && !IsSpace(word[|word| - 1])
    ensures Normalize(pad + word + pad') == Lower(word)
  {
    TrimPadded(pad, word, pad');
  }

  /** With nothing selected every token is new: the existing tags only feed
      the suggestions, so a token such as `react` is added even when it is
      an existing tag. */
  lemma NothingSelected(input: string)
    ensures NewTags([], input) == Tokens(input)
  {
    UnselectedNothing(Tokens(input));
  }

  /** A field typed twice in one input is added twice: the input is not
      de-duplicated against itself. */
  lemma RepeatedFieldAddedTwice(selected: seq<Tag>, field: string)
    requires ',' !in field && !AllSpace(field)
    requires Normalize(field) !in selected
    ensures NewTags(selected, field + [','] + field) == [Normalize(field), Normalize(field)]
  {
    TokensAppend(field, field);
    TokensOfField(field);
    var t := Normalize(field);
    assert Tokens(field + [','] + field) == [t, t];
    assert [t, t][1..] == [t];
    assert [t][1..] == [];
    assert Unselected([t], selected) == [t];
  }

  /** Blank fields between commas yield no token. */
  lemma BlankFieldDropped(a: string, blank: string, b: string)
    requires ',' !in a && ',' !in blank && AllSpace(blank)
    ensures Tokens(a + [','] + blank + [','] + b) == Tokens(a) + Tokens(b)
  {
    var rest := blank + [','] + b;
    var tokensRest := Tokens(rest);
    assert tokensRest == Tokens(b) by {
      TokensAppend(blank, b);
      TokensOfField(blank);
    }
    assert a + [','] + blank + [','] + b == a + [','] + rest;
    TokensAppend(a, rest);
  }

  /** A submission that passed validation: what `onAdd` receives. */
  datatype Draft = Draft(url: string, title: string, notes: string, tags: seq<Tag>)

  /** The keys the tag input reacts to. */
  datatype Key = Enter | Tab | Backspace | OtherKey

  const UrlRequired := "URL is required"
  const TitleRequired := "Title is required"

  /** The form's state; each React setter is a field write. */
  class Form {
    var url: string
    var title: string
    var notes: string
    var tags: seq<Tag>
    var currentTag: string
    var isLoading: bool
    var error: Option<string>

    /** Every field starts empty, not loading, with no error. */
    constructor ()
      ensures url == "" && title == "" && notes == "" && tags == [] && currentTag == ""
      ensures !isLoading && error == None
    {
      url, title, notes, tags, currentTag := "", "", "", [], "";
      isLoading, error := false, None;
    }

    method SetUrl(v: string)
      modifies this`url
      ensures url == v
    {
      url := v;
    }

    method SetTitle(v: string)
      modifies this`title
      ensures title == v
    {
      title := v;
    }

    method SetNotes(v: string)
      modifies this`notes
      ensures notes == v
    {
      notes := v;
    }

    method SetCurrentTag(v: string)
      modifies this`currentTag
      ensures currentTag == v
    {
      currentTag := v;
    }

    /** `processTags`: a blank input changes nothing, not even the text
        being typed. Otherwise the not-yet-selected tokens are appended to
        the selected tags and the text is cleared. */
    method ProcessTags(input: string)
      modifies this`tags, this`currentTag
      ensures AllSpace(input) ==> tags == old(tags) && currentTag == old(currentTag)
      ensures !AllSpace(input) ==> tags == old(tags) + NewTags(old(tags), input) && currentTag == ""
    {
      TrimEmptyIffAllSpace(input);
      if Trim(input) == [] {
        return;
      }
      var newTags := Tokens(input);
      var uniqueTags := Unselected(newTags, tags);
      if |uniqueTags| > 0 {
        tags := tags + uniqueTags;
      }
      currentTag := "";
    }

    /** The Add button: `processTags(currentTag)`. */
    method AddTag()
      modifies this`tags, this`currentTag
      ensures AllSpace(old(currentTag)) ==> tags == old(tags) && currentTag == old(currentTag)
      ensures !AllSpace(old(currentTag)) ==> tags == old(tags) + NewTags(old(tags), old(currentTag)) && currentTag == ""
    {
      ProcessTags(currentTag);
    }

    /** Leaving the tag input: `processTags(currentTag)`. */
    method Blur()
      modifies this`tags, this`currentTag
      ensures AllSpace(old(currentTag)) ==> tags == old(tags) && currentTag == old(currentTag)
      ensures !AllSpace(old(currentTag)) ==> tags == old(tags) + NewTags(old(tags), old(currentTag)) && currentTag == ""
    {
      ProcessTags(currentTag);
    }

    /** The tag input's key handler: Enter and Tab process the typed text;
        Backspace on an empty input drops the last selected tag; anything
        else changes nothing. */
    method KeyDown(key: Key)
      modifies this`tags, this`currentTag
      ensures (key == Enter || key == Tab) && AllSpace(old(currentTag)) ==>
        tags == old(tags) && currentTag == old(currentTag)
      ensures (key == Enter || key == Tab) && !AllSpace(old(currentTag)) ==>
        tags == old(tags) + NewTags(old(tags), old(currentTag)) && currentTag == ""
      ensures key == Backspace && old(currentTag) == "" && old(tags) != [] ==>
        tags == DropLast(old(tags)) && currentTag == old(currentTag)
      ensures key == OtherKey || (key == Backspace && (old(currentTag) != "" || old(tags) == [])) ==>
        tags == old(tags) && currentTag == old(currentTag)
    {
      if key == Enter || key == Tab {
        ProcessTags(currentTag);
      } else if key == Backspace && currentTag == "" && |tags| > 0 {
        tags := tags[..|tags| - 1];
      }
    }

    /** The × on a selected tag removes every occurrence of it. */
    method RemoveTag(tag: Tag)
      modifies this`tags
      ensures tags == RemoveAll(old(tags), tag)
    {
      tags := RemoveAll(tags, tag);
    }

    /** Clicking a suggestion selects it unless it already is. */
    method SuggestionClick(tag: Tag)
      modifies this`tags
      ensures tags == AppendIfAbsent(old(tags), tag)
    {
      if tag !in tags {
        tags := tags + [tag];
      }
    }

    /** `handleSubmit`: the url is checked first, then the title; a failing
        check sets its message and submits nothing. Otherwise loading starts,
        the error is cleared and the draft is handed to `onAdd`. */
    method Submit() returns (draft: Option<Draft>)
      modifies this`isLoading, this`error
      ensures url == "" ==>
        draft == None && error == Some(UrlRequired) && isLoading == old(isLoading)
      ensures url != "" && title == "" ==>
        draft == None && error == Some(TitleRequired) && isLoading == old(isLoading)
      ensures url != "" && title != "" ==>
        draft == Some(Draft(url, title, notes, tags)) && isLoading && error == None
    {
      if url == "" {
        error := Some(UrlRequired);
        return None;
      }
      if title == "" {
        error := Some(TitleRequired);
        return None;
      }
      isLoading := true;
      error := None;
      draft := Some(Draft(url, title, notes, tags));
    }

    /** After `onAdd` settles: a thrown message becomes the error, and
        loading always stops. */
    method FinishSubmit(thrown: Option<string>)
      modifies this`isLoading, this`error
      ensures !isLoading
      ensures error == if thrown.Some? then thrown else old(error)
    {
      if thrown.Some? {
        error := thrown;
      }
      isLoading := false;
    }
  }

  /** Typing a new word, pressing Enter and then Backspace gives back the
      selected tags as they were, with the input cleared. */
  method EnterThenBackspace(form: Form, word: string)
    requires ',' !in word && !AllSpace(word)
    requires Normalize(word) !in form.tags
    modifies form
    ensures form.tags == old(form.tags)
    ensures form.currentTag == ""
  {
    form.SetCurrentTag(word);
    TokensOfField(word);
    assert NewTags(form.tags, word) == [Normalize(word)] by {
      assert [Normalize(word)][1..] == [];
      assert Unselected([Normalize(word)], form.tags) == [Normalize(word)] + Unselected([], form.tags);
    }
    form.KeyDown(Enter);
    assert form.tags == old(form.tags) + [Normalize(word)];
    form.KeyDown(Backspace);
  }
}
