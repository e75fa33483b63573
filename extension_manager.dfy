/** The service extension manager: the `;`-separated codec between a set of
  * extension ids and the string kept in the settings, and the recomputation of
  * the supported extensions from what the installed applications declare. */
module ServiceExtensionManagerModel {
  import opened Common
  import opened JavaStrings

  const EXTENSION_SEPARATOR: char := ';'

  /** The ids kept from a declared token: neither empty nor blank once trimmed. */
  predicate IsKeptExtension(t: string)
  {
    t != [] && |Trim(t)| > 0
  }

  /** getExtensions(String): the tokens between separators that are not blank, kept
    * untrimmed. Null and empty input give the empty set. (Java's `split` drops
    * trailing empty tokens; those are filtered out here anyway.) */
  function ParseExtensions(extensions: Option<string>): (r: set<string>)
    ensures extensions.None? || extensions == Some("") ==> r == {}
    ensures extensions.Some? ==>
              forall e :: e in r <==> e in Split(extensions.value, EXTENSION_SEPARATOR) && !IsBlank(e)
    ensures forall e :: e in r ==> EXTENSION_SEPARATOR !in e && !IsBlank(e)
  {
    if extensions.None? || extensions.value == "" then {}
    else set t | t in Split(extensions.value, EXTENSION_SEPARATOR) && IsKeptExtension(t)
  }

  /** The elements of `xs` that are not blank, in order. */
  function NonBlank(xs: seq<string>): (r: seq<string>)
    ensures |r| <= |xs|
  {
    if xs == [] then []
    else if IsBlank(xs[0]) then NonBlank(xs[1..])
    else [xs[0]] + NonBlank(xs[1..])
  }

  /** NonBlank keeps exactly the elements that are not blank. */
  lemma {:induction false} NonBlankMembers(xs: seq<string>)
    ensures forall e :: e in NonBlank(xs) <==> e in xs && !IsBlank(e)
  {
    if xs != [] {
      NonBlankMembers(xs[1..]);
      assert xs == [xs[0]] + xs[1..];
    }
  }

  /** getExtensions(Set) as written, on the set's iteration order. A counter starts at
    * the set's size and drops by one for every element, blank or not; a separator
    * follows a non-blank element whenever the counter has not reached zero. */
  function JoinExtensionsAsWritten(extensions: Option<seq<string>>): string
  {
    if extensions.None? || extensions.value == [] then "" else JoinRemaining(extensions.value)
  }

  /** The rest of the loop of getExtensions(Set) over the elements `xs` still to visit. */
  function JoinRemaining(xs: seq<string>): string
  {
    if xs == [] then ""
    else if |Trim(xs[0])| == 0 then JoinRemaining(xs[1..])
    else xs[0] + (if |xs| - 1 != 0 then [EXTENSION_SEPARATOR] else "") + JoinRemaining(xs[1..])
  }

  /** A blank element is the last one iterated while some non-blank element came before. */
  predicate EndsWithBlankAfterExtension(xs: seq<string>)
  {
    NonBlank(xs) != [] && IsBlank(xs[|xs| - 1])
  }

  /** One step of the loop on a blank element: nothing is appended. */
  lemma JoinRemainingBlankHead(xs: seq<string>)
    requires xs != [] && IsBlank(xs[0])
    ensures JoinRemaining(xs) == JoinRemaining(xs[1..])
    ensures NonBlank(xs) == NonBlank(xs[1..])
  {
  }

  /** One step of the loop on a non-blank element: the element, then a separator
    * unless it is the last one iterated. */
  lemma JoinRemainingKeptHead(xs: seq<string>)
    requires xs != [] && !IsBlank(xs[0])
    ensures JoinRemaining(xs) ==
              xs[0] + (if |xs| > 1 then [EXTENSION_SEPARATOR] else "") + JoinRemaining(xs[1..])
    ensures NonBlank(xs) == [xs[0]] + NonBlank(xs[1..])
  {
  }

  /** The separator the loop as written leaves at the end, if any. */
  function TrailingSeparator(xs: seq<string>): string
  {
    if EndsWithBlankAfterExtension(xs) then [EXTENSION_SEPARATOR] else ""
  }

  /** The loop as written yields the intended join, plus one separator exactly when the
    * last element iterated is blank and some non-blank element precedes it. */
  lemma {:induction false} JoinRemainingShape(xs: seq<string>)
    ensures JoinRemaining(xs) == JoinWith(NonBlank(xs), EXTENSION_SEPARATOR) + TrailingSeparator(xs)
  {
    if xs != [] {
      var t := xs[1..];
      JoinRemainingShape(t);
      if t != [] {
        assert xs[|xs| - 1] == t[|t| - 1];
      }
      if IsBlank(xs[0]) {
        JoinRemainingBlankHead(xs);
      } else if NonBlank(t) == [] {
        JoinRemainingKeptHead(xs);
        if t != [] {
          NonBlankMembers(t);
          assert t[|t| - 1] in t;
        }
      } else {
        ShapeKeptBeforeKept(xs);
      }
    }
  }

  /** The step of JoinRemainingShape for a non-blank element followed by another one. */
  lemma ShapeKeptBeforeKept(xs: seq<string>)
    requires xs != [] && !IsBlank(xs[0]) && NonBlank(xs[1..]) != []
    requires JoinRemaining(xs[1..]) ==
               JoinWith(NonBlank(xs[1..]), EXTENSION_SEPARATOR) + TrailingSeparator(xs[1..])
    ensures JoinRemaining(xs) == JoinWith(NonBlank(xs), EXTENSION_SEPARATOR) + TrailingSeparator(xs)
  {
    var t := xs[1..];
    var nt := NonBlank(t);
    var sep: string := [EXTENSION_SEPARATOR];
    var tail := TrailingSeparator(t);
    JoinRemainingKeptHead(xs);
    assert t != [];
    assert xs[|xs| - 1] == t[|t| - 1];
    assert TrailingSeparator(xs) == tail;
    var ys := [xs[0]] + nt;
    assert ys[1..] == nt;
    assert JoinWith(ys, EXTENSION_SEPARATOR) == xs[0] + sep + JoinWith(nt, EXTENSION_SEPARATOR);
    var joined := JoinWith(nt, EXTENSION_SEPARATOR);
    assert JoinRemaining(xs) == xs[0] + sep + (joined + tail);
    assert xs[0] + sep + (joined + tail) == (xs[0] + sep + joined) + tail;
    assert NonBlank(xs) == ys;
  }

  /** getExtensions(Set) as evidently intended: the non-blank elements separated by `;`,
    * with no separator after the last one. */
  function JoinExtensions(extensions: Option<seq<string>>): (r: string)
    ensures extensions.None? ==> r == ""
    ensures extensions.Some? ==> r == JoinWith(NonBlank(extensions.value), EXTENSION_SEPARATOR)
  {
    if extensions.None? || extensions.value == [] then ""
    else JoinWith(NonBlank(extensions.value), EXTENSION_SEPARATOR)
  }

  /** The two joins differ only by the trailing separator. */
  lemma JoinsDifferByTrailingSeparator(extensions: Option<seq<string>>)
    ensures JoinExtensionsAsWritten(extensions) ==
              JoinExtensions(extensions) + (if extensions.Some? then TrailingSeparator(extensions.value) else "")
  {
    if extensions.Some? && extensions.value != [] {
      JoinRemainingShape(extensions.value);
    }
  }

  /** A HashSet {"a", "\t"} iterates "a" first and "\t" last, and the code as written then
    * stores "a;" where "a" is meant. */
  lemma BlankIteratedLastLeavesSeparator()
    ensures JoinExtensionsAsWritten(Some(["a", "\t"])) == "a;"
    ensures JoinExtensions(Some(["a", "\t"])) == "a"
  {
    var xs: seq<string> := ["a", "\t"];
    assert !IsBlank("a") by {
      assert "a"[0] == 'a';
    }
    assert xs[1..] == ["\t"] && xs[1..][1..] == [];
    JoinRemainingKeptHead(xs);
    JoinRemainingBlankHead(["\t"]);
    assert NonBlank(xs) == ["a"];
    assert JoinRemaining(xs) == "a" + ";" + "";
  }

  /** Whenever a blank element is iterated last after some id, the code as written ends
    * the stored string with a separator, which the intended join never does. */
  lemma TrailingSeparatorWhenBlankIteratedLast(xs: seq<string>)
    requires forall i :: 0 <= i < |xs| ==> EXTENSION_SEPARATOR !in xs[i]
    requires EndsWithBlankAfterExtension(xs)
    ensures JoinExtensionsAsWritten(Some(xs)) == JoinExtensions(Some(xs)) + [EXTENSION_SEPARATOR]
    ensures JoinExtensions(Some(xs)) != [] && JoinExtensions(Some(xs))[|JoinExtensions(Some(xs))| - 1] != EXTENSION_SEPARATOR
  {
    JoinsDifferByTrailingSeparator(Some(xs));
    var ys := NonBlank(xs);
    NonBlankMembers(xs);
    var last := ys[|ys| - 1];
    assert last in ys;
    assert last != [] && EXTENSION_SEPARATOR !in last;
    JoinEndsWithLast(ys, EXTENSION_SEPARATOR);
  }

  /** A join ends with its last token. */
  lemma {:induction false} JoinEndsWithLast(ys: seq<string>, sep: char)
    requires ys != []
    ensures var j := JoinWith(ys, sep); |ys[|ys| - 1]| <= |j| && j[|j| - |ys[|ys| - 1]|..] == ys[|ys| - 1]
  {
    if |ys| > 1 {
      JoinEndsWithLast(ys[1..], sep);
    }
  }

  /** The non-blank elements, as a set. */
  function Extensions(xs: seq<string>): set<string>
  {
    set x | x in xs && !IsBlank(x)
  }

  /** Parsing the tokens of a join of separator-free tokens keeps exactly the non-blank ones. */
  lemma ParseOfJoin(ys: seq<string>)
    requires forall i :: 0 <= i < |ys| ==> EXTENSION_SEPARATOR !in ys[i]
    requires forall i :: 0 <= i < |ys| ==> !IsBlank(ys[i])
    ensures ys != [] ==> Split(JoinWith(ys, EXTENSION_SEPARATOR), EXTENSION_SEPARATOR) == ys
    ensures ParseExtensions(Some(JoinWith(ys, EXTENSION_SEPARATOR))) == set y | y in ys
  {
    if ys != [] {
      SplitJoin(ys, EXTENSION_SEPARATOR);
      assert JoinWith(ys, EXTENSION_SEPARATOR) != "" by {
        assert ys[0] != "";
        if |ys| == 1 {
        } else {
          assert JoinWith(ys, EXTENSION_SEPARATOR)[..|ys[0]| + 1] == ys[0] + [EXTENSION_SEPARATOR];
        }
      }
    }
  }

  /** Round trip: parsing the intended join of separator-free ids gives back the
    * non-blank ids. */
  lemma {:induction false} ParseJoinRoundTrip(xs: seq<string>)
    requires forall i :: 0 <= i < |xs| ==> EXTENSION_SEPARATOR !in xs[i]
    ensures ParseExtensions(Some(JoinExtensions(Some(xs)))) == Extensions(xs)
  {
    var ys := NonBlank(xs);
    NonBlankMembers(xs);
    forall i | 0 <= i < |ys|
      ensures EXTENSION_SEPARATOR !in ys[i] && !IsBlank(ys[i])
    {
      assert ys[i] in ys;
    }
    ParseOfJoin(ys);
    assert (set y | y in ys) == Extensions(xs);
  }

  /** A trailing separator adds only an empty token, which the parser drops. */
  lemma ParseIgnoresTrailingSeparator(joined: string)
    requires joined != []
    ensures ParseExtensions(Some(joined + [EXTENSION_SEPARATOR])) == ParseExtensions(Some(joined))
  {
    SplitTrailingSeparator(joined, EXTENSION_SEPARATOR);
    var before := Split(joined, EXTENSION_SEPARATOR);
    assert Split(joined + [EXTENSION_SEPARATOR], EXTENSION_SEPARATOR) == before + [""];
    assert IsBlank("");
    forall e
      ensures e in ParseExtensions(Some(joined + [EXTENSION_SEPARATOR])) <==> e in ParseExtensions(Some(joined))
    {
      assert e in before + [""] <==> e in before || e == "";
    }
  }

  /** The trailing separator left by the code as written is harmless to the parser:
    * the round trip holds for it too. */
  lemma {:induction false} ParseJoinAsWrittenRoundTrip(xs: seq<string>)
    requires forall i :: 0 <= i < |xs| ==> EXTENSION_SEPARATOR !in xs[i]
    ensures ParseExtensions(Some(JoinExtensionsAsWritten(Some(xs)))) == Extensions(xs)
  {
    ParseJoinRoundTrip(xs);
    JoinsDifferByTrailingSeparator(Some(xs));
    var joined := JoinExtensions(Some(xs));
    if EndsWithBlankAfterExtension(xs) {
      TrailingSeparatorWhenBlankIteratedLast(xs);
      ParseIgnoresTrailingSeparator(joined);
    } else {
      assert TrailingSeparator(xs) == "";
      assert joined + "" == joined;
    }
  }

  /** The ids every installed application declares in its meta-data (None when it
    * declares none), as getExtensions(String) parses them. */
  function DeclaredExtensions(apps: seq<Option<string>>): (r: set<string>)
    ensures forall e :: e in r ==> !IsBlank(e) && EXTENSION_SEPARATOR !in e
  {
    if apps == [] then {}
    else DeclaredExtensions(apps[..|apps| - 1]) + ParseExtensions(apps[|apps| - 1])
  }

  /** The service extension manager and the settings it reads and writes. */
  class ServiceExtensionManager {
    /** The settings' "extensions allowed" switch. */
    var extensionsAllowed: bool
    /** The supported extensions kept in the settings. */
    var supportedRcsExtensions: set<string>
    /** How many times the registration was restarted to advertise a new set. */
    var registrationRestarts: nat

    constructor (extensionsAllowed: bool, supportedRcsExtensions: set<string>)
      ensures this.extensionsAllowed == extensionsAllowed
      ensures this.supportedRcsExtensions == supportedRcsExtensions
      ensures registrationRestarts == 0
    {
      this.extensionsAllowed := extensionsAllowed;
      this.supportedRcsExtensions := supportedRcsExtensions;
      registrationRestarts := 0;
    }

    /** No control on the id itself: an extension is authorized exactly when the
      * settings allow extensions at all, whatever the extension. */
    function IsExtensionAuthorized(ext: string): (b: bool)
      reads this
      ensures b <==> extensionsAllowed
    {
      extensionsAllowed
    }

    /** Adds every authorized new id to the caller's set; none is ever removed. The set
      * the source changes in place is passed in and handed back. */
    method CheckExtensions(supportedExts: set<string>, newExts: set<string>) returns (r: set<string>)
      ensures supportedExts <= r
      ensures r == supportedExts + (if extensionsAllowed then newExts else {})
    {
      r := supportedExts;
      var remaining := newExts;
      while remaining != {}
        invariant remaining <= newExts
        invariant r == supportedExts + (if extensionsAllowed then newExts - remaining else {})
        decreases remaining
      {
        var extension :| extension in remaining;
        if IsExtensionAuthorized(extension) {
          if extension !in r {
            r := r + {extension};
          }
        }
        remaining := remaining - {extension};
      }
    }

    /** The set the settings should hold: the declared ids when extensions are allowed. */
    function AuthorizedExtensions(apps: seq<Option<string>>): (r: set<string>)
      reads this
      ensures extensionsAllowed ==> r == DeclaredExtensions(apps)
      ensures !extensionsAllowed ==> r == {}
    {
      if extensionsAllowed then DeclaredExtensions(apps) else {}
    }

    /** Recomputes the supported set from the installed applications. Without a context
      * nothing happens. The settings are written, and the registration restarted if
      * the stack is started, only when the recomputed set differs from the stored one. */
    method UpdateSupportedExtensions(context: bool, apps: seq<Option<string>>, coreStarted: bool)
      modifies this`supportedRcsExtensions, this`registrationRestarts
      ensures !context ==> supportedRcsExtensions == old(supportedRcsExtensions)
      ensures context ==> supportedRcsExtensions == AuthorizedExtensions(apps)
      ensures registrationRestarts == old(registrationRestarts) +
                (if context && coreStarted && AuthorizedExtensions(apps) != old(supportedRcsExtensions)
                 then 1 else 0)
    {
      if !context {
        return;
      }
      var newSupportedExts: set<string> := {};
      var oldSupportedExts := supportedRcsExtensions;
      var i := 0;
      while i < |apps|
        invariant 0 <= i <= |apps|
        invariant newSupportedExts == AuthorizedExtensions(apps[..i])
        invariant supportedRcsExtensions == oldSupportedExts
        invariant registrationRestarts == old(registrationRestarts)
      {
        assert apps[..i + 1][..i] == apps[..i];
        var exts := apps[i];
        if exts.Some? && exts.value != "" {
          newSupportedExts := CheckExtensions(newSupportedExts, ParseExtensions(exts));
        }
        i := i + 1;
      }
      assert apps[..|apps|] == apps;
      if oldSupportedExts == newSupportedExts {
        return;
      }
      supportedRcsExtensions := newSupportedExts;
      if coreStarted {
        registrationRestarts := registrationRestarts + 1;
      }
    }

    /** Called when a client application is removed: the same recomputation. */
    method RemoveSupportedExtensions(context: bool, apps: seq<Option<string>>, coreStarted: bool)
      modifies this`supportedRcsExtensions, this`registrationRestarts
      ensures context ==> supportedRcsExtensions == AuthorizedExtensions(apps)
      ensures !context ==> supportedRcsExtensions == old(supportedRcsExtensions)
      ensures registrationRestarts == old(registrationRestarts) +
                (if context && coreStarted && AuthorizedExtensions(apps) != old(supportedRcsExtensions)
                 then 1 else 0)
    {
      UpdateSupportedExtensions(context, apps, coreStarted);
    }

    /** Called when a client application is installed: the same recomputation. */
    method AddNewSupportedExtensions(context: bool, apps: seq<Option<string>>, coreStarted: bool)
      modifies this`supportedRcsExtensions, this`registrationRestarts
      ensures context ==> supportedRcsExtensions == AuthorizedExtensions(apps)
      ensures !context ==> supportedRcsExtensions == old(supportedRcsExtensions)
      ensures registrationRestarts == old(registrationRestarts) +
                (if context && coreStarted && AuthorizedExtensions(apps) != old(supportedRcsExtensions)
                 then 1 else 0)
    {
      UpdateSupportedExtensions(context, apps, coreStarted);
    }
  }
}
