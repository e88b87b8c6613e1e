/** Two display helpers of the project list (liff/components/ProjectList.tsx). */
module ProjectList {
  import JsStrings

  const DefaultImage := "/images/default-project.jpg"

  /** `getProjectImageUrl(projectId)`: projects 1 to 4 have their own image,
      every other id gets the default one. */
  function ProjectImageUrl(projectId: int): (url: string)
    ensures 1 <= projectId <= 4 ==> url == "/images/" + [('0' as int + projectId) as char] + ".png"
    ensures !(1 <= projectId <= 4) ==> url == DefaultImage
  {
    var imageUrls := map[1 := "/images/1.png", 2 := "/images/2.png", 3 := "/images/3.png", 4 := "/images/4.png"];
    if projectId in imageUrls then imageUrls[projectId] else DefaultImage
  }

  /** `getShortTitle(title)`: the part of the title before its first ':',
      trimmed. It holds no ':', neither starts nor ends with whitespace, and
      is what remains of that part once whitespace is cut from both ends. */
  function ShortTitle(title: string): (short: string)
    ensures ':' !in short
    ensures short != [] ==> !JsStrings.IsWhitespace(short[0]) && !JsStrings.IsWhitespace(short[|short| - 1])
    ensures exists i :: JsStrings.TrimmedFrom(title[..JsStrings.IndexOf(title, ':')], short, i)
  {
    var parts := JsStrings.Split(title, ':');
    assert parts[0] == title[..JsStrings.IndexOf(title, ':')];
    JsStrings.TrimKeepsAbsent(parts[0], ':');
    JsStrings.Trim(parts[0])
  }

  /** A title without ':' is shortened to the whole title, trimmed. */
  lemma ShortTitleWithoutColon(title: string)
    requires ':' !in title
    ensures ShortTitle(title) == JsStrings.Trim(title)
  {
    assert title[..JsStrings.IndexOf(title, ':')] == title;
  }

  /** The short title of `head: rest` is `head` trimmed, whatever follows. */
  lemma ShortTitleOfPrefix(head: string, rest: string)
    requires ':' !in head
    ensures ShortTitle(head + ":" + rest) == JsStrings.Trim(head)
  {
    JsStrings.IndexOfPrefix(head, ':', rest);
    assert (head + ":" + rest)[..|head|] == head;
  }
}
