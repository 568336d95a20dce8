/**
  The local message log (recordmsg.go): which folder an event's ids select,
  where filepath.Join puts the file, and the append itself. The file system is
  a map from path to contents.
*/
module Recorder {
  import opened Wrappers

  const Root := "conversations"
  const FileName := "messages.txt"

  /** The kind of id a folder is named after. */
  datatype IdKind = UserKind | RoomKind | GroupKind

  function Label(kind: IdKind): string
  {
    match kind
    case UserKind => "UserID_"
    case RoomKind => "RoomID_"
    case GroupKind => "GroupID_"
  }

  /** The id the folder is named after: the first non-empty of user, room, group (recordmsg.go's if/else chain). */
  function ChosenId(userID: string, roomID: string, groupID: string): (r: Option<(IdKind, string)>)
    ensures userID != "" ==> r == Some((UserKind, userID))
    ensures userID == "" && roomID != "" ==> r == Some((RoomKind, roomID))
    ensures userID == "" && roomID == "" && groupID != "" ==> r == Some((GroupKind, groupID))
    ensures r.None? <==> userID == "" && roomID == "" && groupID == ""
  {
    if userID != "" then Some((UserKind, userID))
    else if roomID != "" then Some((RoomKind, roomID))
    else if groupID != "" then Some((GroupKind, groupID))
    else None
  }

  /** The folder name: the chosen id behind its kind's label, "" when every id is empty. */
  function FolderName(userID: string, roomID: string, groupID: string): (f: string)
    ensures userID != "" ==> f == "UserID_" + userID
    ensures userID == "" && roomID != "" ==> f == "RoomID_" + roomID
    ensures userID == "" && roomID == "" && groupID != "" ==> f == "GroupID_" + groupID
    ensures userID == "" && roomID == "" && groupID == "" ==> f == ""
  {
    match ChosenId(userID, roomID, groupID)
    case None => ""
    case Some((kind, id)) => Label(kind) + id
  }

  /** Reads the kind and the id back out of a folder name. */
  function ParseFolder(folder: string): Option<(IdKind, string)>
  {
    if StartsWith(folder, "UserID_") && |folder| > 7 then Some((UserKind, folder[7..]))
    else if StartsWith(folder, "RoomID_") && |folder| > 7 then Some((RoomKind, folder[7..]))
    else if StartsWith(folder, "GroupID_") && |folder| > 8 then Some((GroupKind, folder[8..]))
    else None
  }

  /**
    The folder name determines which id was chosen and its kind: a non-empty
    user id wins whatever the others are, then a non-empty room id, then a
    non-empty group id, and with no id there is no labelled folder.
  */
  lemma FolderNameRoundTrip(userID: string, roomID: string, groupID: string)
    ensures ParseFolder(FolderName(userID, roomID, groupID)) == ChosenId(userID, roomID, groupID)
    ensures ChosenId(userID, roomID, groupID).Some? ==>
      var (kind, id) := ChosenId(userID, roomID, groupID).value;
      FolderName(userID, roomID, groupID) == Label(kind) + id
  {
    var f := FolderName(userID, roomID, groupID);
    if userID != "" {
      assert f[..7] == "UserID_" && f[7..] == userID;
    } else if roomID != "" {
      assert f[..7] == "RoomID_" && f[7..] == roomID;
      assert f[..7] != "UserID_";
    } else if groupID != "" {
      assert f[..8] == "GroupID_" && f[8..] == groupID;
      assert f[0] == 'G';
    }
  }

  // ---------------------------------------------------------------------------
  // filepath.Join on a Unix system
  // ---------------------------------------------------------------------------

  /** The '/'-separated fields of s, empty ones included (there is always at least one). */
  function Split(s: string): (parts: seq<string>)
    ensures |parts| >= 1
  {
    if s == [] then [""]
    else
      var rest := Split(s[1..]);
      if s[0] == '/' then [""] + rest else [[s[0]] + rest[0]] + rest[1..]
  }

  /** strings.Join(parts, "/"). */
  function JoinSlash(parts: seq<string>): string
  {
    if parts == [] then "" else if |parts| == 1 then parts[0] else parts[0] + "/" + JoinSlash(parts[1..])
  }

  /**
    The element loop of path.Clean: empty and "." elements vanish, ".." removes
    the previous element unless that is itself "..", and at the start a ".."
    is kept in a relative path and dropped in a rooted one.
  */
  function Reduce(out: seq<string>, elems: seq<string>, rooted: bool): seq<string>
    decreases |elems|
  {
    if elems == [] then out
    else
      var e := elems[0];
      if e == "" || e == "." then Reduce(out, elems[1..], rooted)
      else if e == ".." then
        if |out| > 0 && out[|out| - 1] != ".." then Reduce(out[..|out| - 1], elems[1..], rooted)
        else if rooted then Reduce(out, elems[1..], rooted)
        else Reduce(out + [".."], elems[1..], rooted)
      else Reduce(out + [e], elems[1..], rooted)
  }

  /**
    filepath.Clean: the shortest lexically equivalent path, "." for an empty
    result. It is never empty, and it is rooted exactly when its input is.
  */
  function Clean(p: string): (r: string)
    ensures r != ""
    ensures r[0] == '/' <==> |p| > 0 && p[0] == '/'
  {
    var rooted := |p| > 0 && p[0] == '/';
    var out := Reduce([], Split(p), rooted);
    SplitSlashFree(p);
    ReduceSegments([], Split(p), rooted);
    JoinSegmentsHead(out);
    var body := JoinSlash(out);
    if rooted then "/" + body else if body == "" then "." else body
  }

  /**
    filepath.Join: the elements from the first non-empty one on, joined by "/"
    and cleaned. The result is "" exactly when every element is empty.
  */
  function Join(elems: seq<string>): (r: string)
    ensures r == "" <==> forall i :: 0 <= i < |elems| ==> elems[i] == ""
  {
    if elems == [] then ""
    else if elems[0] != "" then Clean(JoinSlash(elems))
    else Join(elems[1..])
  }

  /**
    The file RecordMessage appends to: whatever the ids, it is a file named
    messages.txt, on its own or as the last element of a longer path.
  */
  function MessagesPath(userID: string, roomID: string, groupID: string): (r: string)
    ensures r == FileName || (|r| > |FileName| && r[|r| - |FileName| - 1..] == "/" + FileName)
  {
    var dirPath := Join([Root, FolderName(userID, roomID, groupID)]);
    JoinEndsWithPlain(dirPath, FileName);
    Join([dirPath, FileName])
  }

  /** An element Clean leaves alone. */
  predicate Plain(e: string)
  {
    e != "" && e != "." && e != ".." && '/' !in e
  }

  /** Elements as Clean produces them: non-empty and free of "/". */
  predicate Segments(xs: seq<string>)
  {
    forall i :: 0 <= i < |xs| ==> xs[i] != "" && '/' !in xs[i]
  }

  lemma JoinSegmentsHead(xs: seq<string>)
    requires Segments(xs)
    ensures xs != [] ==> |JoinSlash(xs)| > 0 && JoinSlash(xs)[0] != '/'
  {
    if xs != [] {
      JoinSlashHead(xs);
      assert xs[0][0] in xs[0];
    }
  }

  lemma {:induction false} SplitSlashFree(s: string)
    ensures forall i :: 0 <= i < |Split(s)| ==> '/' !in Split(s)[i]
  {
    if s != [] {
      SplitSlashFree(s[1..]);
      var rest := Split(s[1..]);
      if s[0] != '/' {
        assert '/' !in [s[0]] + rest[0];
      }
    }
  }

  lemma {:induction false} ReduceSegments(out: seq<string>, elems: seq<string>, rooted: bool)
    requires Segments(out)
    requires forall i :: 0 <= i < |elems| ==> '/' !in elems[i]
    ensures Segments(Reduce(out, elems, rooted))
    decreases |elems|
  {
    if elems != [] {
      var e := elems[0];
      if e == "" || e == "." {
        ReduceSegments(out, elems[1..], rooted);
      } else if e == ".." {
        if |out| > 0 && out[|out| - 1] != ".." {
          ReduceSegments(out[..|out| - 1], elems[1..], rooted);
        } else if rooted {
          ReduceSegments(out, elems[1..], rooted);
        } else {
          ReduceSegments(out + [".."], elems[1..], rooted);
        }
      } else {
        ReduceSegments(out + [e], elems[1..], rooted);
      }
    }
  }

  lemma {:induction false} ReduceLastPlain(out: seq<string>, elems: seq<string>, c: string, rooted: bool)
    requires Plain(c)
    ensures Reduce(out, elems + [c], rooted) == Reduce(out, elems, rooted) + [c]
    decreases |elems|
  {
    if elems == [] {
      assert [] + [c] == [c];
      assert Reduce(out, [c], rooted) == Reduce(out + [c], [], rooted);
    } else {
      assert (elems + [c])[0] == elems[0] && (elems + [c])[1..] == elems[1..] + [c];
      var e := elems[0];
      if e == "" || e == "." {
        ReduceLastPlain(out, elems[1..], c, rooted);
      } else if e == ".." {
        if |out| > 0 && out[|out| - 1] != ".." {
          ReduceLastPlain(out[..|out| - 1], elems[1..], c, rooted);
        } else if rooted {
          ReduceLastPlain(out, elems[1..], c, rooted);
        } else {
          ReduceLastPlain(out + [".."], elems[1..], c, rooted);
        }
      } else {
        ReduceLastPlain(out + [e], elems[1..], c, rooted);
      }
    }
  }

  lemma {:induction false} JoinSlashLast(xs: seq<string>, c: string)
    ensures JoinSlash(xs + [c]) == if xs == [] then c else JoinSlash(xs) + "/" + c
  {
    if xs == [] {
      assert [] + [c] == [c];
    } else if |xs| == 1 {
      assert xs + [c] == [xs[0], c];
    } else {
      assert (xs + [c])[0] == xs[0] && (xs + [c])[1..] == xs[1..] + [c];
      JoinSlashLast(xs[1..], c);
    }
  }

  /** Cleaning a path that ends in a plain element keeps that element last. */
  lemma CleanEndsWithPlain(p: string, c: string)
    requires Plain(c)
    ensures var r := Clean(p + "/" + c);
      r == c || (|r| > |c| && r[|r| - |c| - 1..] == "/" + c)
  {
    var q := p + "/" + c;
    SplitAtSlash(p, c);
    SplitNoSlash(c);
    var rooted := |q| > 0 && q[0] == '/';
    ReduceLastPlain([], Split(p), c, rooted);
    var out := Reduce([], Split(p), rooted);
    assert Reduce([], Split(q), rooted) == out + [c];
    JoinSlashLast(out, c);
  }

  /** Joining a plain last element keeps it last. */
  lemma JoinEndsWithPlain(d: string, c: string)
    requires Plain(c)
    ensures var r := Join([d, c]);
      r == c || (|r| > |c| && r[|r| - |c| - 1..] == "/" + c)
  {
    if d == "" {
      assert [d, c][1..] == [c];
      JoinPlain([c]);
    } else {
      assert JoinSlash([d, c]) == d + "/" + c;
      CleanEndsWithPlain(d, c);
    }
  }

  lemma {:induction false} SplitNoSlash(s: string)
    requires '/' !in s
    ensures Split(s) == [s]
  {
    if s != [] {
      SplitNoSlash(s[1..]);
      assert [s[0]] + s[1..] == s;
    }
  }

  lemma {:induction false} SplitAtSlash(a: string, b: string)
    ensures Split(a + "/" + b) == Split(a) + Split(b)
  {
    if a == [] {
      assert a + "/" + b == "/" + b;
      assert ("/" + b)[1..] == b;
    } else {
      assert (a + "/" + b)[0] == a[0];
      assert (a + "/" + b)[1..] == a[1..] + "/" + b;
      SplitAtSlash(a[1..], b);
    }
  }

  lemma {:induction false} SplitJoinPlain(elems: seq<string>)
    requires elems != []
    requires forall i :: 0 <= i < |elems| ==> '/' !in elems[i]
    ensures Split(JoinSlash(elems)) == elems
  {
    if |elems| == 1 {
      SplitNoSlash(elems[0]);
    } else {
      SplitJoinPlain(elems[1..]);
      SplitAtSlash(elems[0], JoinSlash(elems[1..]));
      SplitNoSlash(elems[0]);
    }
  }

  lemma {:induction false} ReducePlain(out: seq<string>, elems: seq<string>, rooted: bool)
    requires forall i :: 0 <= i < |elems| ==> Plain(elems[i])
    ensures Reduce(out, elems, rooted) == out + elems
    decreases |elems|
  {
    if elems != [] {
      ReducePlain(out + [elems[0]], elems[1..], rooted);
      assert out + [elems[0]] + elems[1..] == out + elems;
    }
  }

  lemma JoinSlashHead(elems: seq<string>)
    requires elems != [] && elems[0] != ""
    ensures |JoinSlash(elems)| > 0 && JoinSlash(elems)[0] == elems[0][0]
  {
  }

  /** Joining plain elements is plain concatenation with "/": Clean has nothing to do. */
  lemma JoinPlain(elems: seq<string>)
    requires elems != []
    requires forall i :: 0 <= i < |elems| ==> Plain(elems[i])
    ensures Join(elems) == JoinSlash(elems)
  {
    var p := JoinSlash(elems);
    SplitJoinPlain(elems);
    ReducePlain([], elems, false);
    JoinSlashHead(elems);
    assert elems[0][0] != '/';
    assert Reduce([], Split(p), false) == elems;
  }

  /** The directory join followed by the file join equals one join of the three plain elements. */
  lemma JoinTwice(a: string, b: string, c: string)
    requires Plain(a) && Plain(b) && Plain(c)
    ensures Join([Join([a, b]), c]) == a + "/" + b + "/" + c
  {
    JoinPlain([a, b]);
    assert JoinSlash([a, b]) == a + "/" + b;
    var dir := a + "/" + b;
    assert JoinSlash([dir, c]) == dir + "/" + c;
    assert JoinSlash([a, b, c]) == a + "/" + (b + "/" + c);
    JoinPlain([a, b, c]);
    assert Join([dir, c]) == Clean(dir + "/" + c);
    assert Join([a, b, c]) == Clean(a + "/" + (b + "/" + c));
    assert dir + "/" + c == a + "/" + (b + "/" + c);
  }

  lemma FolderPlain(userID: string, roomID: string, groupID: string)
    requires ChosenId(userID, roomID, groupID).Some?
    requires '/' !in ChosenId(userID, roomID, groupID).value.1
    ensures Plain(FolderName(userID, roomID, groupID))
  {
  }

  /** With a chosen id that holds no "/", the file is conversations/<Label><id>/messages.txt. */
  lemma MessagesPathPlain(userID: string, roomID: string, groupID: string)
    requires ChosenId(userID, roomID, groupID).Some?
    requires '/' !in ChosenId(userID, roomID, groupID).value.1
    ensures MessagesPath(userID, roomID, groupID) == Root + "/" + FolderName(userID, roomID, groupID) + "/" + FileName
  {
    FolderPlain(userID, roomID, groupID);
    JoinTwice(Root, FolderName(userID, roomID, groupID), FileName);
  }

  /** An empty middle element is dropped by the first join. */
  lemma JoinTwiceEmptyMiddle(a: string, c: string)
    requires Plain(a) && Plain(c)
    ensures Join([Join([a, ""]), c]) == a + "/" + c
  {
    assert JoinSlash([a, ""]) == a + "/" + "";
    SplitAtSlash(a, "");
    SplitNoSlash(a);
    assert Split(a + "/" + "") == [a, ""];
    assert Reduce([], [a, ""], false) == Reduce([a], [""], false) == Reduce([a], [], false) == [a];
    assert Join([a, ""]) == Clean(a + "/" + "");
    JoinSlashHead([a, ""]);
    assert Join([a, ""]) == a;
    JoinPlain([a, c]);
  }

  /** With every id empty the folder is "" and Join drops it: the file is conversations/messages.txt. */
  lemma MessagesPathNoIds()
    ensures MessagesPath("", "", "") == Root + "/" + FileName
  {
    JoinTwiceEmptyMiddle(Root, FileName);
  }

  /** The demo program's first call: a user id. */
  lemma DemoUserPath()
    ensures MessagesPath("123", "", "") == "conversations/UserID_123/messages.txt"
  {
    MessagesPathPlain("123", "", "");
  }

  /** The demo program's second call: a room id only. */
  lemma DemoRoomPath()
    ensures MessagesPath("", "456", "") == "conversations/RoomID_456/messages.txt"
  {
    MessagesPathPlain("", "456", "");
  }

  /** The demo program's third call: a group id only. */
  lemma DemoGroupPath()
    ensures MessagesPath("", "", "789") == "conversations/GroupID_789/messages.txt"
  {
    MessagesPathPlain("", "", "789");
  }

  /** Two ".." elements cancel the two plain elements before them. */
  lemma ClimbOut(a: string, b: string, x: string)
    requires Plain(a) && Plain(b) && Plain(x)
    ensures Join([a, b, "..", "..", x]) == x
  {
    var up := "..";
    var elems := [a, b, up, up, x];
    assert forall i :: 0 <= i < |elems| ==> '/' !in elems[i];
    SplitJoinPlain(elems);
    var p := JoinSlash(elems);
    JoinSlashHead(elems);
    assert elems[0] == a && [] + [a] == [a];
    assert Reduce([], elems, false) == Reduce([a], elems[1..], false);
    assert elems[1..][0] == b && elems[1..][1..] == elems[2..] && [a] + [b] == [a, b];
    assert Reduce([a], elems[1..], false) == Reduce([a, b], elems[2..], false);
    assert [a, b][..1] == [a];
    assert Reduce([a, b], elems[2..], false) == Reduce([a], elems[3..], false);
    assert Reduce([a], elems[3..], false) == Reduce([], elems[4..], false);
    assert Reduce([], elems[4..], false) == Reduce([x], [], false);
    assert Reduce([], Split(p), false) == [x];
  }

  /** Ids are not sanitised: a user id "/../../x" takes the file out of the conversations folder, to x/messages.txt. */
  lemma UserIdCanLeaveRoot(x: string)
    requires Plain(x)
    ensures MessagesPath("/../../" + x, "", "") == x + "/" + FileName
  {
    var folder := FolderName("/../../" + x, "", "");
    var up := "..";
    var lead := "UserID_";
    assert folder == lead + "/" + up + "/" + up + "/" + x;
    var elems := [Root, lead, up, up, x];
    assert JoinSlash(elems[4..]) == x;
    assert JoinSlash(elems[3..]) == up + "/" + x;
    assert JoinSlash(elems[2..]) == up + "/" + (up + "/" + x);
    assert JoinSlash(elems[1..]) == lead + "/" + (up + "/" + (up + "/" + x));
    assert JoinSlash(elems) == Root + "/" + (lead + "/" + (up + "/" + (up + "/" + x)));
    assert JoinSlash([Root, folder]) == JoinSlash(elems);
    ClimbOut(Root, lead, x);
    assert Join([Root, folder]) == x;
    JoinPlain([x, FileName]);
  }

  // ---------------------------------------------------------------------------
  // The append
  // ---------------------------------------------------------------------------

  /** The files after appending `data` to `path`, which is created empty when missing. */
  function Appended(files: map<string, string>, path: string, data: string): (r: map<string, string>)
    ensures r.Keys == files.Keys + {path}
    ensures var before := if path in files then files[path] else "";
      StartsWith(r[path], before) && r[path][|before|..] == data
    ensures forall p :: p in files && p != path ==> r[p] == files[p]
  {
    var before := if path in files then files[path] else "";
    files[path := before + data]
  }

  /** Two appends to one file leave both lines in order after the earlier contents. */
  lemma AppendedTwice(files: map<string, string>, path: string, a: string, b: string)
    ensures var before := if path in files then files[path] else "";
      Appended(Appended(files, path, a), path, b)[path] == before + a + b
  {
  }

  /** The local file system as far as RecordMessage touches it. */
  class FileStore {
    var files: map<string, string>

    constructor (files: map<string, string>)
      ensures this.files == files
    {
      this.files := files;
    }

    /** RecordMessage: one line, message + "\n", at the end of the chosen file; no other file changes. */
    method RecordMessage(userID: string, roomID: string, groupID: string, message: string)
      modifies this
      ensures files == Appended(old(files), MessagesPath(userID, roomID, groupID), message + "\n")
    {
      var folderName := "";
      if userID != "" {
        folderName := "UserID_" + userID;
      } else if roomID != "" {
        folderName := "RoomID_" + roomID;
      } else if groupID != "" {
        folderName := "GroupID_" + groupID;
      }
      var dirPath := Join([Root, folderName]);
      var filePath := Join([dirPath, FileName]);
      var before := if filePath in files then files[filePath] else "";
      files := files[filePath := before + (message + "\n")];
    }
  }
}
