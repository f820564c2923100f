/**
 * The repository editor above the chat (app/components/RepoSelector.tsx). The
 * owner, repository name and error shown are the chat page's state, changed
 * through the callbacks it passes down; the editor itself keeps whether it is
 * editing and the values it was opened with.
 */
module RepoSelector {

  import opened Options
  import opened Strings
  import opened ChatClient

  /** `isValidRepo`: both names present and matching their patterns, tested on
      the raw text, so any white space makes them invalid. */
  predicate IsValidRepo(owner: string, repo: string) {
    owner != "" && OwnerPattern(owner) && repo != "" && RepoPattern(repo)
  }

  /** `hasRepoChanged`: the trimmed names differ from the trimmed originals. */
  predicate HasRepoChanged(owner: string, repo: string, originalOwner: string, originalRepo: string) {
    Trim(owner) != Trim(originalOwner) || Trim(repo) != Trim(originalRepo)
  }

  /** The Change button is rendered only for a changed, valid repository. */
  predicate ShowsChangeButton(owner: string, repo: string, originalOwner: string, originalRepo: string) {
    HasRepoChanged(owner, repo, originalOwner, originalRepo) && IsValidRepo(owner, repo)
  }

  /** Names the editor accepts are free of white space, so the trimmed values it
      saves are the names as typed. */
  lemma ValidNamesAreTrimmed(owner: string, repo: string)
    requires IsValidRepo(owner, repo)
    ensures Trim(owner) == owner && Trim(repo) == repo
  {
    PatternHasNoSpace(owner);
    PatternHasNoSpace(repo);
  }

  /** The editor checks the patterns only; the chat page's check before sending
      adds the length limits. Within the limits the two agree. */
  lemma EditorAndSubmitAgree(owner: string, repo: string)
    ensures RepoCheck(owner, repo) == None <==>
              IsValidRepo(owner, repo) && |owner| <= MaxOwnerLength && |repo| <= MaxRepoLength
  {
  }

  /** An owner name of 40 letters is accepted by the editor and refused when a
      question is sent. */
  lemma EditorAcceptsOverlongOwner()
    ensures var owner := seq(40, i => 'a');
            IsValidRepo(owner, "r") && RepoCheck(owner, "r") == Some(OwnerTooLong)
  {
    var owner := seq(40, i => 'a');
    assert IsAsciiAlnum(owner[0]) && IsAsciiAlnum(owner[39]);
    assert OwnerPattern(owner);
    assert RepoPattern("r");
    assert !AllSpace(owner) by { assert !IsJsSpace(owner[0]); }
    PatternLength(owner);
  }

  /** White space added around the names, by any amount and on either side, is
      not a change. */
  lemma PaddingIsNoChange(owner: string, repo: string, a: string, b: string, c: string, d: string)
    requires AllSpace(a) && AllSpace(b) && AllSpace(c) && AllSpace(d)
    ensures !HasRepoChanged(a + owner + b, c + repo + d, owner, repo)
  {
    TrimIgnoresPadding(a, owner, b);
    TrimIgnoresPadding(c, repo, d);
  }

  /** The editor's state; the names and the error belong to the chat page. */
  class Editor {
    const page: ChatSession
    var isEditing: bool
    var originalOwner: string
    var originalRepo: string

    constructor(page: ChatSession)
      ensures this.page == page && !isEditing && originalOwner == "" && originalRepo == ""
    {
      this.page := page;
      isEditing := false;
      originalOwner := "";
      originalRepo := "";
    }

    /** The Change button would be shown while editing: the current names differ
        from the originals and are valid. It is what `handleDone` tests, which does
        not itself check that the editor is open. */
    predicate ShowsChange()
      reads this, page
    {
      ShowsChangeButton(page.repoOwner, page.repoName, originalOwner, originalRepo)
    }

    /** `handleEditClick`: remember the current names and open the editor. */
    method EditClick()
      modifies this
      ensures isEditing && originalOwner == page.repoOwner && originalRepo == page.repoName
    {
      originalOwner := page.repoOwner;
      originalRepo := page.repoName;
      isEditing := true;
    }

    /** Typing in the owner field: the new text is taken as is and the error is cleared. */
    method EditOwner(text: string)
      modifies page
      ensures page.repoOwner == text && page.repoError == None
      ensures page.repoName == old(page.repoName) && page.ConversationKept()
    {
      page.repoOwner := text;
      page.repoError := None;
    }

    /** Typing in the repository field. */
    method EditRepo(text: string)
      modifies page
      ensures page.repoName == text && page.repoError == None
      ensures page.repoOwner == old(page.repoOwner) && page.ConversationKept()
    {
      page.repoName := text;
      page.repoError := None;
    }

    /** `handleCancel`: put back the names the editor was opened with, clear the
        error and close; the conversation is kept. */
    method Cancel()
      modifies this, page
      ensures !isEditing && originalOwner == old(originalOwner) && originalRepo == old(originalRepo)
      ensures page.repoOwner == originalOwner && page.repoName == originalRepo && page.repoError == None
      ensures page.ConversationKept()
    {
      page.repoOwner := originalOwner;
      page.repoName := originalRepo;
      page.repoError := None;
      isEditing := false;
    }

    /** `handleDone`: for a valid, changed repository, save the trimmed names,
        close the editor and start a new chat; otherwise do nothing. */
    method Done()
      modifies this, page
      ensures !old(ShowsChange()) ==>
                unchanged(this) && unchanged(page)
      ensures old(ShowsChange()) ==>
                && !isEditing
                && page.repoOwner == old(page.repoOwner) && page.repoName == old(page.repoName)
                && page.repoError == old(page.repoError) && page.ConversationCleared()
                && originalOwner == old(originalOwner) && originalRepo == old(originalRepo)
    {
      var owner, repo := page.repoOwner, page.repoName;
      if IsValidRepo(owner, repo) && HasRepoChanged(owner, repo, originalOwner, originalRepo) {
        ValidNamesAreTrimmed(owner, repo);
        page.repoOwner := Trim(owner);
        page.repoName := Trim(repo);
        isEditing := false;
        page.NewChat();
      }
    }

    /** The New Chat button. */
    method NewChatClick()
      modifies page
      ensures page.ConversationCleared()
      ensures page.repoOwner == old(page.repoOwner) && page.repoName == old(page.repoName)
      ensures page.repoError == old(page.repoError)
    {
      page.NewChat();
    }
  }
}
