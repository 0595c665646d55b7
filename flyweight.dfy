/** A letter cache that builds at most one letter object per character and hands the
    same object out on every later request. */
module Flyweight {

  /** A letter: its character and the style it was created with. The fields never change. */
  class DocumentCharacter {
    const character: char
    const fontType: string
    const fontSize: int

    constructor (c: char, ft: string, fs: int)
      ensures character == c && fontType == ft && fontSize == fs
    {
      character := c;
      fontType := ft;
      fontSize := fs;
    }
  }

  /** The letter cache. `created` is the sequence of characters for which "Creating new
      Letter" was announced, in order. */
  class LetterFactory {
    var cache: map<char, DocumentCharacter>
    var created: seq<char>

    /** Every cached letter is filed under its own character, and each cached character was
        announced exactly once: `created` lists the keys of the cache, each one time. */
    ghost predicate Valid()
      reads this
    {
      && (forall c | c in cache :: cache[c].character == c)
      && multiset(created) == multiset(cache.Keys)
    }

    /** The cache starts empty. */
    constructor ()
      ensures Valid() && cache == map[] && created == []
    {
      cache := map[];
      created := [];
    }

    /** `createLetter`. On a miss it announces and builds one letter from the given
        character, font type and size and files it under the character. On a hit it returns
        the letter already filed, ignores the font arguments and changes nothing. Either
        way no entry is removed and no other entry changes. */
    method CreateLetter(character: char, fontType: string, fontSize: int) returns (letter: DocumentCharacter)
      requires Valid()
      modifies this
      ensures Valid()
      ensures character in cache && letter == cache[character]
      ensures character in old(cache) ==> cache == old(cache) && created == old(created)
      ensures character !in old(cache) ==>
        && fresh(letter)
        && letter.character == character && letter.fontType == fontType && letter.fontSize == fontSize
        && cache == old(cache)[character := letter]
        && created == old(created) + [character]
    {
      if character !in cache {
        created := created + [character];
        var newLetter := new DocumentCharacter(character, fontType, fontSize);
        assert cache[character := newLetter].Keys == cache.Keys + {character};
        cache := cache[character := newLetter];
      }
      letter := cache[character];
    }

    /** Announcements match distinct characters: no character is announced twice, and
        there are as many announcements as distinct characters in the cache. */
    lemma CreatedCountsDistinctKeys()
      requires Valid()
      ensures |created| == |cache.Keys|
      ensures forall i, j | 0 <= i < j < |created| :: created[i] != created[j]
      ensures forall c :: c in cache <==> c in created
    {
      assert |multiset(created)| == |multiset(cache.Keys)|;
      forall c
        ensures c in cache <==> c in created
      {
        assert c in cache <==> c in multiset(cache.Keys);
        assert c in created <==> c in multiset(created);
      }
      forall i, j | 0 <= i < j < |created|
        ensures created[i] != created[j]
      {
        if created[i] == created[j] {
          TwiceListedTwiceCounted(created, i, j);
        }
      }
    }
  }

  /** A value listed at two positions of a sequence occurs at least twice in its multiset. */
  lemma TwiceListedTwiceCounted(s: seq<char>, i: nat, j: nat)
    requires i < j < |s| && s[i] == s[j]
    ensures multiset(s)[s[i]] >= 2
  {
    assert s == s[..j] + [s[j]] + s[j + 1..];
    assert s[i] in multiset(s[..j]) by { assert s[..j][i] == s[i]; }
  }

  /** The demonstration: t, h, a, t. Three letters are built, and the fourth request
      returns the very object the first one did. */
  method Demo() returns (created: seq<char>, fourthIsFirst: bool)
    ensures created == ['t', 'h', 'a'] && fourthIsFirst
  {
    var factory := new LetterFactory();
    var letter1 := factory.CreateLetter('t', "sans", 16);
    var letter2 := factory.CreateLetter('h', "sans", 16);
    var letter3 := factory.CreateLetter('a', "sans", 16);
    var letter4 := factory.CreateLetter('t', "sans", 16);
    created, fourthIsFirst := factory.created, letter4 == letter1;
  }
}
