/** The singleton variant of the letter cache: every caller reaches the factory through
    one process-wide pointer, so all handles share one cache. */
module FlyweightSingleton {
  import opened Flyweight

  /** The static storage of the program: the one factory built at start-up. */
  class Singleton {
    const letterFactory: LetterFactory

    /** Static initialisation builds the single factory, with an empty cache. */
    constructor ()
      ensures fresh(letterFactory)
      ensures letterFactory.Valid() && letterFactory.cache == map[] && letterFactory.created == []
    {
      letterFactory := new LetterFactory();
    }

    /** `getLetterFactory` hands out the same factory on every call. */
    method GetLetterFactory() returns (factory: LetterFactory)
      ensures factory == letterFactory
    {
      factory := letterFactory;
    }
  }

  /** The first half of the demonstration: t, h, a, t through a first handle builds
      three letters. */
  method FirstHandleRound(program: Singleton) returns (factory: LetterFactory)
    requires program.letterFactory.Valid()
    requires program.letterFactory.cache == map[] && program.letterFactory.created == []
    modifies program.letterFactory
    ensures factory == program.letterFactory && factory.Valid()
    ensures factory.created == ['t', 'h', 'a'] && factory.cache.Keys == {'t', 'h', 'a'}
  {
    factory := program.GetLetterFactory();
    var letter1 := factory.CreateLetter('t', "sans", 16);
    var letter2 := factory.CreateLetter('h', "sans", 16);
    var letter3 := factory.CreateLetter('a', "sans", 16);
    var letter4 := factory.CreateLetter('t', "sans", 16);
  }

  /** The second half: t, h, i, s through a second handle, which is the same factory,
      so only i and s are built. */
  method SecondHandleRound(program: Singleton, first: LetterFactory) returns (factory: LetterFactory)
    requires first == program.letterFactory && first.Valid()
    requires first.created == ['t', 'h', 'a'] && first.cache.Keys == {'t', 'h', 'a'}
    modifies program.letterFactory
    ensures factory == first
    ensures factory.created == ['t', 'h', 'a', 'i', 's']
  {
    factory := program.GetLetterFactory();
    var letter5 := factory.CreateLetter('t', "sans", 16);
    var letter6 := factory.CreateLetter('h', "sans", 16);
    var letter7 := factory.CreateLetter('i', "sans", 16);
    var letter8 := factory.CreateLetter('s', "sans", 16);
  }

  /** The demonstration: both handles obtained from `getLetterFactory` are one factory,
      the first round builds t, h and a, and the second round builds only i and s. */
  method Demo() returns (sameFactory: bool, firstRound: seq<char>, secondRound: seq<char>)
    ensures sameFactory
    ensures firstRound == ['t', 'h', 'a'] && secondRound == ['i', 's']
  {
    var program := new Singleton();
    var letterFactory1 := FirstHandleRound(program);
    firstRound := letterFactory1.created;
    var letterFactory2 := SecondHandleRound(program, letterFactory1);
    sameFactory := letterFactory1 == letterFactory2;
    secondRound := letterFactory2.created[|firstRound|..];
  }
}
