/** The sample contract the landing page preloads into its editor. */
module Constants {

  /**
   * `DEMO_CONTRACT`, written as a concatenation of short literals so that
   * facts about its characters stay cheap to prove.
   */
  const DEMO_CONTRACT: string :=
    "pragma solidity ^0.8.0;\n" + DEMO_MIDDLE + "}"

  /** The lines of the demo contract between its pragma line and its closing brace. */
  const DEMO_MIDDLE: string := DEMO_UPPER_PART + DEMO_LOWER_PART

  const DEMO_UPPER_PART: string :=
    "\n" +
    "contract VulnerableContract {\n" +
    "    mapping(address => uint256) publ" +
    "ic balances;\n" +
    "    \n" +
    "    function deposit() public payabl" +
    "e {\n" +
    "        balances[msg.sender] += msg." +
    "value;\n" +
    "    }\n" +
    "    \n" +
    "    function withdraw(uint256 amount" +
    ") public {\n" +
    "        require(balances[msg.sender]" +
    " >= amount, \"Insufficient balance\");" +
    "\n" +
    "        \n" +
    "        // Vulnerable to reentrancy\n" +
    "        (bool success, ) = msg.sende" +
    "r.call{value: amount}(\"\");\n" +
    "        require(success, \"Transfer f" +
    "ailed\");\n"

  const DEMO_LOWER_PART: string :=
    "        \n" +
    "        balances[msg.sender] -= amou" +
    "nt;\n" +
    "    }\n" +
    "    \n" +
    "    function processArray(uint256[] " +
    "memory data) public pure returns (ui" +
    "nt256) {\n" +
    "        uint256 sum = 0;\n" +
    "        // Gas inefficient loop\n" +
    "        for (uint256 i = 0; i < data" +
    ".length; i++) {\n" +
    "            sum += data[i];\n" +
    "        }\n" +
    "        return sum;\n" +
    "    }\n" +
    "    \n" +
    "    function unsafeFunction(address " +
    "target, bytes memory data) public {\n" +
    "        // Missing input validation\n" +
    "        (bool success, ) = target.ca" +
    "ll(data);\n" +
    "        require(success, \"Call faile" +
    "d\");\n" +
    "    }\n"

  lemma UpperPartLength()
    ensures |DEMO_UPPER_PART| < 1000
  {
  }

  lemma LowerPartLength()
    ensures |DEMO_LOWER_PART| < 1000
  {
  }

  /** The demo contract starts with its pragma, ends with a brace and is a few thousand characters at most. */
  lemma DemoShape()
    ensures |DEMO_CONTRACT| < 3000
    ensures DEMO_CONTRACT[..15] == "pragma solidity"
    ensures DEMO_CONTRACT[|DEMO_CONTRACT| - 1] == '}'
  {
    UpperPartLength();
    LowerPartLength();
    var head := "pragma solidity ^0.8.0;\n";
    assert DEMO_CONTRACT == head + DEMO_MIDDLE + "}";
    assert DEMO_CONTRACT[..15] == head[..15];
  }
}
